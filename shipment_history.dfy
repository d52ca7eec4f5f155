/**
 * The route of a shipment as a history of where it has been.
 *
 * In the store as written, a shipment status update stores one location
 * object twice, as the current location and as the last route entry; a
 * later product status update then sets the status and time of the current
 * location in place, which rewrites that route entry too. The model keeps
 * locations as values, so each route entry, once recorded, stays as it was.
 * This module states both: `HeldShipment` tracks which route entry shares
 * its object with the current location, and shows the recorded move being
 * overwritten; `Apply` runs the model's own steps and keeps every entry.
 */
module ShipmentHistory {
  import opened Options
  import opened Entities

  /** The steps that touch a stored shipment's route. */
  datatype Step =
    | MoveTo(location: Location)              // updateShipmentStatus, not delivered
    | SetStatus(status: Status, at: Time)     // the cascade of updateProductStatus

  /** The model's shipment after a run of steps. */
  function Apply(sh: Shipment, steps: seq<Step>): Shipment
    decreases |steps|
  {
    if |steps| == 0 then sh
    else
      var next := match steps[0]
        case MoveTo(location) => Move(sh, location)
        case SetStatus(status, at) => Cascade(sh, status, at);
      Apply(next, steps[1..])
  }

  /**
   * The route is append-only: every step adds exactly one entry and leaves
   * the recorded ones as they were; a move records its location verbatim.
   */
  lemma {:induction false} RouteOnlyGrows(sh: Shipment, steps: seq<Step>)
    ensures |Apply(sh, steps).route| == |sh.route| + |steps|
    ensures Apply(sh, steps).route[..|sh.route|] == sh.route
    ensures forall i :: 0 <= i < |steps| && steps[i].MoveTo? ==>
              Apply(sh, steps).route[|sh.route| + i] == steps[i].location
    decreases |steps|
  {
    if |steps| > 0 {
      var next := match steps[0]
        case MoveTo(location) => Move(sh, location)
        case SetStatus(status, at) => Cascade(sh, status, at);
      assert |next.route| == |sh.route| + 1 && next.route[..|sh.route|] == sh.route;
      RouteOnlyGrows(next, steps[1..]);
      var r := Apply(sh, steps);
      assert r == Apply(next, steps[1..]);
      assert r.route[..|sh.route|] == next.route[..|next.route|][..|sh.route|];
      forall i | 0 <= i < |steps| && steps[i].MoveTo?
        ensures r.route[|sh.route| + i] == steps[i].location
      {
        if i == 0 {
          assert r.route[|sh.route|] == r.route[..|next.route|][|sh.route|];
        } else {
          assert steps[1..][i - 1] == steps[i];
        }
      }
    }
  }

  /**
   * A shipment as the store as written holds it: `alias` is the index of
   * the route entry that is the same object as the current location, if any.
   */
  datatype HeldShipment = HeldShipment(sh: Shipment, alias: Option<nat>)

  /** `updateShipmentStatus` as written: one object becomes both the current location and the new last entry. */
  function MoveAsWritten(h: HeldShipment, location: Location): HeldShipment {
    HeldShipment(Move(h.sh, location), Some(|h.sh.route|))
  }

  /**
   * The cascade of `updateProductStatus` as written: status and time are set
   * on the current location object in place, so the route entry sharing it
   * changes as well; the entry it then appends is a new object.
   */
  function CascadeAsWritten(h: HeldShipment, status: Status, at: Time): HeldShipment {
    var here := h.sh.currentLocation.(status := status, timestamp := at);
    var route := if h.alias.Some? && h.alias.value < |h.sh.route| then h.sh.route[h.alias.value := here] else h.sh.route;
    HeldShipment(h.sh.(currentLocation := here, route := route + [Location(here.city, here.country, at, status)]), h.alias)
  }

  /**
   * As written, a shipment moved to `location` and then reached by a product
   * status update no longer has `location` in its history: the entry
   * recorded for the move now carries the cascade's status and time. The
   * model keeps it.
   */
  lemma AsWrittenRewritesRecordedMove(sh: Shipment, location: Location, status: Status, at: Time)
    requires status != location.status || at != location.timestamp
    ensures var h := CascadeAsWritten(MoveAsWritten(HeldShipment(sh, None), location), status, at);
      && h.sh.route[|sh.route|] == location.(status := status, timestamp := at)
      && h.sh.route[|sh.route|] != location
    ensures var route := Apply(sh, [MoveTo(location), SetStatus(status, at)]).route;
      |route| == |sh.route| + 2 && route[|sh.route|] == location
  {
    RouteOnlyGrows(sh, [MoveTo(location), SetStatus(status, at)]);
  }
}
