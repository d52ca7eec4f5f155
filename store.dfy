/**
 * The in-memory entity store: four insertion-ordered tables (customers,
 * products, shipments, commissions) and the administrator wallets, with the
 * mutators that carry the business rules (nothing changes once delivered,
 * a product with a route gets a shipment, a shipment gets a commission, a
 * product status update cascades to the product's first shipment) and the
 * queries the views read.
 */
module Store {
  import opened Options
  import opened Entities
  import opened Sequences
  import opened OrderedMap
  import opened Ledger

  const DefaultAdminWallets: set<string> := {AdminWalletA, AdminWalletB}

  function HasWallet(walletAddress: string): Customer -> bool {
    (c: Customer) => c.walletAddress == walletAddress
  }

  function ProductOwnedBy(customerId: Id): Product -> bool {
    (p: Product) => p.customerId == customerId
  }

  function ShipmentOwnedBy(customerId: Id): Shipment -> bool {
    (s: Shipment) => s.customerId == customerId
  }

  function ForProduct(productId: Id): Shipment -> bool {
    (s: Shipment) => s.productId == productId
  }

  /**
   * The shipment table after a status update of product `productId`: the
   * first shipment, in insertion order, that refers to the product gets the
   * cascade; the others are left alone.
   */
  function CascadeFirst(m: OMap<Id, Shipment>, productId: Id, s: Status, now: Time): (r: OMap<Id, Shipment>)
    requires m.Valid()
    ensures r.Valid() && r.keys == m.keys
  {
    match FirstIndex(m.Values(), ForProduct(productId))
    case None => m
    case Some(i) => m.Put(m.keys[i], Cascade(m.Values()[i], s, now))
  }

  /**
   * A product status update changes at most one shipment: none when no
   * shipment refers to the product, and otherwise the first that does, whose
   * current location takes the status and whose route grows by exactly one
   * entry at the current city and country.
   */
  lemma CascadeFirstChangesOnlyFirstMatch(m: OMap<Id, Shipment>, productId: Id, s: Status, now: Time)
    requires m.Valid()
    ensures var vs, ws := m.Values(), CascadeFirst(m, productId, s, now).Values();
      && |ws| == |vs|
      && ((forall j :: 0 <= j < |vs| ==> vs[j].productId != productId) ==> ws == vs)
      && forall i :: 0 <= i < |vs| && vs[i].productId == productId
                     && (forall j :: 0 <= j < i ==> vs[j].productId != productId) ==>
           && (forall j :: 0 <= j < |vs| && j != i ==> ws[j] == vs[j])
           && ws[i] == vs[i].(currentLocation := ws[i].currentLocation, route := ws[i].route)
           && ws[i].currentLocation == vs[i].currentLocation.(status := s, timestamp := now)
           && ws[i].route == vs[i].route + [Location(vs[i].currentLocation.city, vs[i].currentLocation.country, now, s)]
  {
    var vs := m.Values();
    match FirstIndex(vs, ForProduct(productId))
    case None =>
    case Some(i) =>
      assert vs[i] == m.entries[m.keys[i]];
      PutExistingKeepsPosition(m, m.keys[i], Cascade(vs[i], s, now));
      assert IndexOf(m.keys, m.keys[i]) == Some(i) by {
        var k := IndexOf(m.keys, m.keys[i]).value;
        assert m.keys[k] == m.keys[i];
      }
  }

  /** A commission whose fee is well formed and which is booked against a stored shipment with the same product and customer. */
  ghost predicate Booked(c: Commission, shipments: map<Id, Shipment>) {
    && WellFormed(c)
    && c.shipmentId in shipments
    && shipments[c.shipmentId].productId == c.productId
    && shipments[c.shipmentId].customerId == c.customerId
  }

  ghost predicate CustomersKeyed(m: map<Id, Customer>, clock: Id) {
    forall k :: k in m ==> k < clock && m[k].id == k
  }

  ghost predicate ProductsKeyed(m: map<Id, Product>, clock: Id) {
    forall k :: k in m ==> k < clock && m[k].id == k
  }

  ghost predicate ShipmentsKeyed(m: map<Id, Shipment>, clock: Id) {
    forall k :: k in m ==> k < clock && m[k].id == k
  }

  ghost predicate CommissionsKeyed(m: map<Id, Commission>, clock: Id) {
    forall k :: k in m ==> k < clock && m[k].id == k
  }

  /** Every commission is booked against a stored shipment, and no shipment has two commissions. */
  ghost predicate LedgerValid(commissions: map<Id, Commission>, shipments: map<Id, Shipment>) {
    && (forall k :: k in commissions ==> Booked(commissions[k], shipments))
    && (forall k1, k2 :: k1 in commissions && k2 in commissions && k1 != k2 ==>
          commissions[k1].shipmentId != commissions[k2].shipmentId)
  }

  /** `after` keeps every shipment of `before`, with the same product and customer. */
  ghost predicate SameLinks(before: map<Id, Shipment>, after: map<Id, Shipment>) {
    forall k :: k in before ==>
      k in after && after[k].productId == before[k].productId && after[k].customerId == before[k].customerId
  }

  lemma LedgerKeptWhenLinksKept(commissions: map<Id, Commission>, before: map<Id, Shipment>, after: map<Id, Shipment>)
    requires LedgerValid(commissions, before) && SameLinks(before, after)
    ensures LedgerValid(commissions, after)
  {
    forall k | k in commissions ensures Booked(commissions[k], after) {
      assert Booked(commissions[k], before);
    }
  }

  /**
   * Each table is a well-formed ordered map keyed by its records' own ids,
   * all drawn before `clock`, and the ledger is valid against the shipments.
   */
  ghost predicate Consistent(customers: OMap<Id, Customer>, products: OMap<Id, Product>,
                             shipments: OMap<Id, Shipment>, commissions: OMap<Id, Commission>, clock: Id) {
    && customers.Valid() && products.Valid() && shipments.Valid() && commissions.Valid()
    && CustomersKeyed(customers.entries, clock)
    && ProductsKeyed(products.entries, clock)
    && ShipmentsKeyed(shipments.entries, clock)
    && CommissionsKeyed(commissions.entries, clock)
    && LedgerValid(commissions.entries, shipments.entries)
  }

  /** Rewriting a stored shipment without changing its id, product or customer keeps the tables consistent. */
  lemma ConsistentAfterShipmentRewrite(customers: OMap<Id, Customer>, products: OMap<Id, Product>,
                                       shipments: OMap<Id, Shipment>, commissions: OMap<Id, Commission>,
                                       clock: Id, s: Shipment)
    requires Consistent(customers, products, shipments, commissions, clock)
    requires s.id in shipments.entries
    requires shipments.entries[s.id].productId == s.productId && shipments.entries[s.id].customerId == s.customerId
    ensures Consistent(customers, products, shipments.Put(s.id, s), commissions, clock)
  {
    LedgerKeptWhenLinksKept(commissions.entries, shipments.entries, shipments.entries[s.id := s]);
  }

  /** Rewriting a stored product without changing its id keeps the tables consistent. */
  lemma ConsistentAfterProductRewrite(customers: OMap<Id, Customer>, products: OMap<Id, Product>,
                                      shipments: OMap<Id, Shipment>, commissions: OMap<Id, Commission>,
                                      clock: Id, p: Product)
    requires Consistent(customers, products, shipments, commissions, clock)
    requires p.id in products.entries
    ensures Consistent(customers, products.Put(p.id, p), shipments, commissions, clock)
  {
  }

  /** Marking a commission as paid keeps the tables consistent. */
  lemma ConsistentAfterMarkPaid(customers: OMap<Id, Customer>, products: OMap<Id, Product>,
                                shipments: OMap<Id, Shipment>, commissions: OMap<Id, Commission>,
                                clock: Id, id: Id)
    requires Consistent(customers, products, shipments, commissions, clock)
    ensures Consistent(customers, products, shipments, MarkPaid(commissions, id), clock)
  {
    if id in commissions.entries {
      assert Booked(commissions.entries[id], shipments.entries);
    }
  }

  /** Storing a shipment under the fresh id keeps the tables consistent, and no commission refers to it yet. */
  lemma ConsistentAfterNewShipment(customers: OMap<Id, Customer>, products: OMap<Id, Product>,
                                   shipments: OMap<Id, Shipment>, commissions: OMap<Id, Commission>,
                                   clock: Id, s: Shipment)
    requires Consistent(customers, products, shipments, commissions, clock)
    requires s.id == clock
    ensures Consistent(customers, products, shipments.Put(s.id, s), commissions, clock + 1)
    ensures forall k :: k in commissions.entries ==> commissions.entries[k].shipmentId != s.id
  {
    LedgerKeptWhenLinksKept(commissions.entries, shipments.entries, shipments.entries[s.id := s]);
    forall k | k in commissions.entries ensures commissions.entries[k].shipmentId != s.id {
      assert Booked(commissions.entries[k], shipments.entries);
    }
  }

  class DataStore {
    var customers: OMap<Id, Customer>
    var products: OMap<Id, Product>
    var shipments: OMap<Id, Shipment>
    var commissions: OMap<Id, Commission>
    const adminWallets: set<string>
    /** The source of fresh identifiers (the store's use of `Date.now()` in ids). */
    var clock: Id

    /**
     * Each table is a well-formed ordered map keyed by its records' own ids,
     * all drawn before `clock`; the administrators are the two seeded
     * wallets; every commission is well formed and booked against a stored
     * shipment, and no shipment has two commissions.
     */
    ghost predicate Valid()
      reads this
    {
      && adminWallets == DefaultAdminWallets
      && Consistent(customers, products, shipments, commissions, clock)
    }

    constructor ()
      ensures Valid()
      ensures customers.keys == [] && products.keys == [] && shipments.keys == [] && commissions.keys == []
    {
      customers := OMap([], map[]);
      products := OMap([], map[]);
      shipments := OMap([], map[]);
      commissions := OMap([], map[]);
      adminWallets := DefaultAdminWallets;
      clock := 0;
    }

    /** Administrator check: membership in the two wallets seeded at construction. */
    function IsAdmin(walletAddress: string): (r: bool)
      reads this
      requires Valid()
      ensures r <==> walletAddress == AdminWalletA || walletAddress == AdminWalletB
    {
      walletAddress in adminWallets
    }

    // ---------------------------------------------------------------- customers

    method AddCustomer(f: CustomerFields, now: Time) returns (c: Customer)
      requires Valid()
      modifies this
      ensures Valid()
      ensures c == Customer(old(clock), f.walletAddress, f.name, f.email, f.phone, f.address, now)
      ensures c.id !in old(customers.entries)
      ensures customers.entries == old(customers.entries)[c.id := c]
      ensures customers.Values() == old(customers.Values()) + [c]
      ensures old(GetCustomerByWallet(f.walletAddress)).None? ==> GetCustomerByWallet(f.walletAddress) == Some(c)
      ensures old(GetCustomerByWallet(f.walletAddress)).Some? ==>
                GetCustomerByWallet(f.walletAddress) == old(GetCustomerByWallet(f.walletAddress))
      ensures products == old(products) && shipments == old(shipments) && commissions == old(commissions)
      ensures clock == old(clock) + 1
    {
      c := Customer(clock, f.walletAddress, f.name, f.email, f.phone, f.address, now);
      ghost var vs := customers.Values();
      PutNewAppends(customers, c.id, c);
      customers := customers.Put(c.id, c);
      clock := clock + 1;
      match FirstIndex(vs, HasWallet(f.walletAddress))
      case None => FirstIndexUnique(vs + [c], HasWallet(f.walletAddress), |vs|);
      case Some(i) => FirstIndexUnique(vs + [c], HasWallet(f.walletAddress), i);
    }

    /** The first customer, in insertion order, with the given wallet. */
    function GetCustomerByWallet(walletAddress: string): (r: Option<Customer>)
      reads this`customers
      requires customers.Valid()
      ensures r.None? <==> forall i :: 0 <= i < |customers.keys| ==> customers.Values()[i].walletAddress != walletAddress
      ensures r.Some? ==> exists i :: 0 <= i < |customers.keys| && customers.Values()[i] == r.value
                             && r.value.walletAddress == walletAddress
                             && forall j :: 0 <= j < i ==> customers.Values()[j].walletAddress != walletAddress
    {
      var vs := customers.Values();
      match FirstIndex(vs, HasWallet(walletAddress))
      case None => None
      case Some(i) => Some(vs[i])
    }

    function GetCustomer(id: Id): (r: Option<Customer>)
      reads this
      requires Valid()
      ensures r.Some? <==> id in customers.entries
      ensures r.Some? ==> r.value.id == id && r.value in customers.Values()
    {
      customers.Get(id)
    }

    method UpdateCustomer(id: Id, u: CustomerPatch) returns (r: Option<Customer>)
      requires Valid()
      modifies this
      ensures Valid()
      ensures id !in old(customers.entries) ==> r.None? && customers == old(customers)
      ensures id in old(customers.entries) ==>
                && IndexOf(old(customers.keys), id).Some?
                && r == Some(MergeCustomer(old(customers.entries[id]), u))
                && customers.keys == old(customers.keys)
                && customers.entries == old(customers.entries)[id := r.value]
                && customers.Values() == old(customers.Values())[IndexOf(old(customers.keys), id).value := r.value]
      ensures products == old(products) && shipments == old(shipments) && commissions == old(commissions)
      ensures clock == old(clock)
    {
      if id !in customers.entries {
        return None;
      }
      var updated := MergeCustomer(customers.entries[id], u);
      PutExistingKeepsPosition(customers, id, updated);
      customers := customers.Put(id, updated);
      r := Some(updated);
    }

    // ---------------------------------------------------------------- products

    method AddProduct(f: ProductFields, now: Time) returns (p: Product)
      requires Valid()
      modifies this
      ensures Valid()
      ensures p == Product(old(clock), f.customerId, f.name, f.description, f.quantity, f.status,
                           f.origin, f.destination, now)
      ensures p.id !in old(products.entries)
      ensures products.entries == old(products.entries)[p.id := p]
      ensures products.Values() == old(products.Values()) + [p]
      ensures customers == old(customers)
      ensures !(Truthy(f.origin) && Truthy(f.destination)) ==>
                shipments == old(shipments) && commissions == old(commissions) && clock == old(clock) + 1
      ensures Truthy(f.origin) && Truthy(f.destination) ==>
                var s := NewShipment(old(clock) + 1, AutoShipmentFields(p, now), now);
                && shipments.Values() == old(shipments.Values()) + [s]
                && shipments.entries == old(shipments.entries)[s.id := s]
                && s.productId == p.id && s.customerId == p.customerId
                && s.trackingNumber == TrackingNumber(now)
                && s.currentLocation == Location(f.origin.value, DefaultCountry, now, Pending)
                && s.route == [s.currentLocation]
                && commissions.Values() == old(commissions.Values())
                     + [NewCommission(old(clock) + 2,
                                      CommissionFields(p.customerId, p.id, s.id, CommissionPerProduct, p.quantity),
                                      now)]
                && clock == old(clock) + 3
    {
      p := Product(clock, f.customerId, f.name, f.description, f.quantity, f.status,
                   f.origin, f.destination, now);
      PutNewAppends(products, p.id, p);
      products := products.Put(p.id, p);
      clock := clock + 1;
      if Truthy(f.origin) && Truthy(f.destination) {
        var s := AddShipment(AutoShipmentFields(p, now), now);
      }
    }

    /**
     * Sets a product's status and cascades it to the first shipment, in
     * insertion order, that refers to the product; the scan stops there.
     * The cascade is not blocked by a delivered shipment.
     */
    method UpdateProductStatus(id: Id, status: Status, now: Time) returns (r: Option<Product>)
      requires Valid()
      modifies this
      ensures Valid()
      ensures id !in old(products.entries) ==>
                r.None? && products == old(products) && shipments == old(shipments)
      ensures id in old(products.entries) ==>
                && r == Some(old(products.entries[id]).(status := status))
                && products.keys == old(products.keys)
                && products.entries == old(products.entries)[id := r.value]
                && shipments == CascadeFirst(old(shipments), id, status, now)
      ensures customers == old(customers) && commissions == old(commissions) && clock == old(clock)
    {
      if id !in products.entries {
        return None;
      }
      var product := products.entries[id].(status := status);
      ConsistentAfterProductRewrite(customers, products, shipments, commissions, clock, product);
      products := products.Put(id, product);
      r := Some(product);

      ghost var vs := shipments.Values();
      var i := 0;
      while i < |shipments.keys|
        invariant i <= |shipments.keys|
        invariant shipments == old(shipments)
        invariant forall j :: 0 <= j < i ==> vs[j].productId != id
      {
        var shipment := shipments.entries[shipments.keys[i]];
        if shipment.productId == id {
          assert vs[i] == shipment;
          FirstIndexUnique(vs, ForProduct(id), i);
          var cascaded := Cascade(shipment, status, now);
          ConsistentAfterShipmentRewrite(customers, products, shipments, commissions, clock, cascaded);
          shipments := shipments.Put(shipment.id, cascaded);
          break;
        }
        i := i + 1;
      }
    }

    function GetProduct(id: Id): (r: Option<Product>)
      reads this
      requires Valid()
      ensures r.Some? <==> id in products.entries
      ensures r.Some? ==> r.value.id == id && r.value in products.Values()
    {
      products.Get(id)
    }

    /** The customer's products, in insertion order. */
    function GetProductsByCustomer(customerId: Id): (r: seq<Product>)
      reads this`products
      requires products.Valid()
      ensures forall i :: 0 <= i < |r| ==> r[i].customerId == customerId
      ensures IsSubsequence(r, products.Values())
      ensures forall x :: x in products.Values() ==>
                multiset(r)[x] == if x.customerId == customerId then multiset(products.Values())[x] else 0
    {
      FilterCounts(products.Values(), ProductOwnedBy(customerId));
      Filter(products.Values(), ProductOwnedBy(customerId))
    }

    method UpdateProduct(id: Id, u: ProductPatch) returns (r: Option<Product>)
      requires Valid()
      modifies this
      ensures Valid()
      ensures id !in old(products.entries) ==> r.None? && products == old(products)
      ensures id in old(products.entries) ==>
                && IndexOf(old(products.keys), id).Some?
                && r == Some(MergeProduct(old(products.entries[id]), u))
                && products.keys == old(products.keys)
                && products.entries == old(products.entries)[id := r.value]
                && products.Values() == old(products.Values())[IndexOf(old(products.keys), id).value := r.value]
      ensures customers == old(customers) && shipments == old(shipments) && commissions == old(commissions)
      ensures clock == old(clock)
    {
      if id !in products.entries {
        return None;
      }
      var updated := MergeProduct(products.entries[id], u);
      PutExistingKeepsPosition(products, id, updated);
      products := products.Put(id, updated);
      r := Some(updated);
    }

    /** Removes a product unless it is unknown or delivered; its shipments and commissions stay. */
    method DeleteProduct(id: Id) returns (ok: bool)
      requires Valid()
      modifies this
      ensures Valid()
      ensures ok <==> id in old(products.entries) && old(products.entries[id]).status != Delivered
      ensures !ok ==> products == old(products)
      ensures ok ==> && IndexOf(old(products.keys), id).Some?
                     && products.entries == old(products.entries) - {id}
                     && var i := IndexOf(old(products.keys), id).value;
                        products.Values() == old(products.Values())[..i] + old(products.Values())[i + 1..]
      ensures customers == old(customers) && shipments == old(shipments) && commissions == old(commissions)
      ensures clock == old(clock)
    {
      if id !in products.entries {
        return false;
      }
      if products.entries[id].status == Delivered {
        return false;
      }
      DeleteRemovesOne(products, id);
      products := products.Delete(id);
      ok := true;
    }

    // ---------------------------------------------------------------- shipments

    /**
     * Stores a shipment and, when its product is stored, books exactly one
     * commission for it: the fixed fee times the product's quantity as it is now.
     */
    method AddShipment(f: ShipmentFields, now: Time) returns (s: Shipment)
      requires Valid()
      modifies this
      ensures Valid()
      ensures s == NewShipment(old(clock), f, now)
      ensures s.id !in old(shipments.entries)
      ensures shipments.entries == old(shipments.entries)[s.id := s]
      ensures shipments.Values() == old(shipments.Values()) + [s]
      ensures customers == old(customers) && products == old(products)
      ensures f.productId !in old(products.entries) ==>
                commissions == old(commissions) && clock == old(clock) + 1
      ensures f.productId in old(products.entries) ==>
                && commissions.Values() == old(commissions.Values())
                     + [NewCommission(old(clock) + 1,
                                      CommissionFields(f.customerId, f.productId, s.id, CommissionPerProduct,
                                                       old(products.entries[f.productId]).quantity),
                                      now)]
                && clock == old(clock) + 2
      ensures (exists k :: k in commissions.entries && commissions.entries[k].shipmentId == s.id)
                <==> f.productId in old(products.entries)
    {
      s := NewShipment(clock, f, now);
      PutNewAppends(shipments, s.id, s);
      ConsistentAfterNewShipment(customers, products, shipments, commissions, clock, s);
      shipments := shipments.Put(s.id, s);
      clock := clock + 1;
      if f.productId in products.entries {
        var product := products.entries[f.productId];
        var c := AddCommission(CommissionFields(s.customerId, s.productId, s.id, CommissionPerProduct, product.quantity), now);
        assert c.id in commissions.entries;
      }
    }

    /**
     * Books a commission. Private to the store: its one caller passes the
     * fixed fee and the shipment it has just stored, which has no commission yet.
     */
    method AddCommission(f: CommissionFields, now: Time) returns (c: Commission)
      requires Valid()
      requires f.amount == CommissionPerProduct
      requires f.shipmentId in shipments.entries
      requires shipments.entries[f.shipmentId].productId == f.productId
      requires shipments.entries[f.shipmentId].customerId == f.customerId
      requires forall k :: k in commissions.entries ==> commissions.entries[k].shipmentId != f.shipmentId
      modifies this
      ensures Valid()
      ensures c == NewCommission(old(clock), f, now)
      ensures c.totalAmount == c.amount * c.quantity && c.status == PaymentPending
      ensures commissions.Values() == old(commissions.Values()) + [c]
      ensures commissions.entries == old(commissions.entries)[c.id := c]
      ensures customers == old(customers) && products == old(products) && shipments == old(shipments)
      ensures clock == old(clock) + 1
    {
      c := NewCommission(clock, f, now);
      PutNewAppends(commissions, c.id, c);
      commissions := commissions.Put(c.id, c);
      clock := clock + 1;
    }

    function GetShipment(id: Id): (r: Option<Shipment>)
      reads this
      requires Valid()
      ensures r.Some? <==> id in shipments.entries
      ensures r.Some? ==> r.value.id == id && r.value in shipments.Values()
    {
      shipments.Get(id)
    }

    /** The customer's shipments, in insertion order. */
    function GetShipmentsByCustomer(customerId: Id): (r: seq<Shipment>)
      reads this`shipments
      requires shipments.Valid()
      ensures forall i :: 0 <= i < |r| ==> r[i].customerId == customerId
      ensures IsSubsequence(r, shipments.Values())
      ensures forall x :: x in shipments.Values() ==>
                multiset(r)[x] == if x.customerId == customerId then multiset(shipments.Values())[x] else 0
    {
      FilterCounts(shipments.Values(), ShipmentOwnedBy(customerId));
      Filter(shipments.Values(), ShipmentOwnedBy(customerId))
    }

    /**
     * Moves a shipment to a new location: refused (and nothing changes) for an
     * unknown or delivered shipment; otherwise the location becomes the current
     * one and is appended to the route.
     */
    method UpdateShipmentStatus(id: Id, location: Location) returns (r: Option<Shipment>)
      requires Valid()
      modifies this
      ensures Valid()
      ensures r.None? <==> id !in old(shipments.entries)
                           || old(shipments.entries[id]).currentLocation.status == Delivered
      ensures r.None? ==> shipments == old(shipments)
      ensures r.Some? ==>
                && IndexOf(old(shipments.keys), id).Some?
                && r.value == Move(old(shipments.entries[id]), location)
                && shipments.keys == old(shipments.keys)
                && shipments.entries == old(shipments.entries)[id := r.value]
                && shipments.Values() == old(shipments.Values())[IndexOf(old(shipments.keys), id).value := r.value]
      ensures customers == old(customers) && products == old(products) && commissions == old(commissions)
      ensures clock == old(clock)
    {
      if id !in shipments.entries {
        return None;
      }
      var shipment := shipments.entries[id];
      if shipment.currentLocation.status == Delivered {
        return None;
      }
      shipment := Move(shipment, location);
      PutExistingKeepsPosition(shipments, id, shipment);
      ConsistentAfterShipmentRewrite(customers, products, shipments, commissions, clock, shipment);
      shipments := shipments.Put(id, shipment);
      r := Some(shipment);
    }

    // ---------------------------------------------------------------- commissions

    /** The customer's commissions, in insertion order. */
    function GetCommissionsByCustomer(customerId: Id): (r: seq<Commission>)
      reads this`commissions
      requires commissions.Valid()
      ensures forall i :: 0 <= i < |r| ==> r[i].customerId == customerId
      ensures IsSubsequence(r, commissions.Values())
      ensures forall x :: x in commissions.Values() ==>
                multiset(r)[x] == if x.customerId == customerId then multiset(commissions.Values())[x] else 0
    {
      FilterCounts(commissions.Values(), ChargedTo(customerId));
      Filter(commissions.Values(), ChargedTo(customerId))
    }

    /** The unpaid commissions, in insertion order. */
    function GetPendingCommissions(): (r: seq<Commission>)
      reads this`commissions
      requires commissions.Valid()
      ensures forall i :: 0 <= i < |r| ==> r[i].status == PaymentPending
      ensures IsSubsequence(r, commissions.Values())
      ensures forall x :: x in commissions.Values() ==>
                multiset(r)[x] == if x.status == PaymentPending then multiset(commissions.Values())[x] else 0
    {
      FilterCounts(commissions.Values(), IsPending);
      Filter(commissions.Values(), IsPending)
    }

    /** Every stored commission is well formed. */
    lemma LedgerWellFormed()
      requires Valid()
      ensures forall c :: c in commissions.Values() ==> WellFormed(c)
    {
      forall c | c in commissions.Values() ensures WellFormed(c) {
        var i :| 0 <= i < |commissions.keys| && commissions.Values()[i] == c;
        assert Booked(commissions.entries[commissions.keys[i]], shipments.entries);
      }
    }

    /** What a customer owes in total: the fixed fee times the quantity of all their commissions. */
    function GetTotalCommissions(customerId: Id): (r: int)
      reads this
      requires Valid()
      ensures r == CommissionPerProduct * TotalQuantity(GetCommissionsByCustomer(customerId))
    {
      var cs := GetCommissionsByCustomer(customerId);
      LedgerWellFormed();
      TotalIsFeeTimesQuantity(cs);
      TotalAmount(cs)
    }

    /** What is still owed overall: the ledger's total less what has been paid. */
    function GetTotalPendingCommissions(): (r: int)
      reads this
      requires Valid()
      ensures r == TotalAmount(commissions.Values()) - TotalAmount(Filter(commissions.Values(), IsPaid))
      ensures r == CommissionPerProduct * TotalQuantity(GetPendingCommissions())
    {
      var cs := GetPendingCommissions();
      PendingPlusPaid(commissions.Values());
      LedgerWellFormed();
      TotalIsFeeTimesQuantity(cs);
      TotalAmount(cs)
    }

    /**
     * Marks a commission as paid; only its status changes. The pending total
     * falls by its total if it was pending, and no customer's total moves.
     */
    method MarkCommissionAsPaid(id: Id) returns (r: Option<Commission>)
      requires Valid()
      modifies this
      ensures Valid()
      ensures commissions == MarkPaid(old(commissions), id)
      ensures r.None? <==> id !in old(commissions.entries)
      ensures r.Some? ==> r.value == old(commissions.entries[id]).(status := Paid)
      ensures GetTotalPendingCommissions() == old(GetTotalPendingCommissions())
                - (if id in old(commissions.entries) && old(commissions.entries[id]).status == PaymentPending
                   then old(commissions.entries[id]).totalAmount else 0)
      ensures forall customerId :: GetTotalCommissions(customerId) == old(GetTotalCommissions(customerId))
      ensures customers == old(customers) && products == old(products) && shipments == old(shipments)
      ensures clock == old(clock)
    {
      ghost var before := commissions;
      ConsistentAfterMarkPaid(customers, products, shipments, commissions, clock, id);
      if id in commissions.entries {
        var commission := commissions.entries[id].(status := Paid);
        commissions := commissions.Put(id, commission);
        r := Some(commission);
      } else {
        r := None;
      }
      PendingTotalAfterMarkPaid(before, id);
      forall customerId ensures GetTotalCommissions(customerId) == old(GetTotalCommissions(customerId)) {
        CustomerTotalAfterMarkPaid(before, id, customerId);
      }
    }
  }
}
