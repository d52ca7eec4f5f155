/**
 * The records the store keeps (customers, products, shipments with their
 * locations, commissions), the fixed values it uses, and the record-level
 * pieces of its operations: merging a partial update into a record, the
 * generated tracking number, the shipment that a new product with a route
 * gets, and the status cascade from a product to one of its shipments.
 */
module Entities {
  import opened Options

  /** Generated record identifiers; the store draws them from a counter. */
  type Id = nat

  /** A `Date`, as milliseconds since the epoch. */
  type Time = nat

  /**
   * Status of a product and of a shipment location. Products are declared
   * with the first three only, but callers pass shipment statuses (including
   * `delayed`) to the product status update, so one type serves both.
   */
  datatype Status = Pending | InTransit | Delayed | Delivered

  datatype CommissionStatus = PaymentPending | Paid

  /** The two wallets the store registers as administrators when it is constructed. */
  const AdminWalletA: string := "GBBD47UZM2HO7A7A34DQWBHPUWV3O3F2G4KQWYSZ3VLCHW77RXOVVEHP"
  const AdminWalletB: string := "GDB32Z2KGWHQIJHFLNFH4K2FG2JKYFZL7STVFXNL3L7K5DQQHPZ4K2"

  /** Money is counted in units of 0.0001 XLM, so the per-product fee of 0.0001 XLM is one unit. */
  const CommissionPerProduct: int := 1

  const DefaultCountry: string := "Türkiye"

  /** Three days in milliseconds: the estimated delivery of an auto-created shipment. */
  const DeliveryLeadTime: nat := 3 * 24 * 60 * 60 * 1000

  datatype Customer = Customer(
    id: Id, walletAddress: string, name: string, email: string,
    phone: string, address: string, createdAt: Time)

  /** The caller-supplied part of a customer (everything but id and creation time). */
  datatype CustomerFields = CustomerFields(
    walletAddress: string, name: string, email: string, phone: string, address: string)

  /** A partial customer: `None` marks a field the update does not mention. */
  datatype CustomerPatch = CustomerPatch(
    walletAddress: Option<string>, name: Option<string>, email: Option<string>,
    phone: Option<string>, address: Option<string>)

  datatype Product = Product(
    id: Id, customerId: Id, name: string, description: string, quantity: int,
    status: Status, origin: Option<string>, destination: Option<string>, createdAt: Time)

  datatype ProductFields = ProductFields(
    customerId: Id, name: string, description: string, quantity: int,
    status: Status, origin: Option<string>, destination: Option<string>)

  datatype ProductPatch = ProductPatch(
    customerId: Option<Id>, name: Option<string>, description: Option<string>,
    quantity: Option<int>, status: Option<Status>, origin: Option<string>,
    destination: Option<string>)

  /** A place and status at a moment; used for origin, destination, current position and route entries. */
  datatype Location = Location(city: string, country: string, timestamp: Time, status: Status)

  datatype Shipment = Shipment(
    id: Id, customerId: Id, productId: Id, trackingNumber: string,
    origin: Location, destination: Location, currentLocation: Location,
    estimatedDelivery: Time, route: seq<Location>, createdAt: Time)

  datatype ShipmentFields = ShipmentFields(
    customerId: Id, productId: Id, trackingNumber: string,
    origin: Location, destination: Location, currentLocation: Location,
    estimatedDelivery: Time, route: seq<Location>)

  datatype Commission = Commission(
    id: Id, customerId: Id, productId: Id, shipmentId: Id,
    amount: int, quantity: int, totalAmount: int,
    status: CommissionStatus, createdAt: Time)

  /** What the store passes when it books a commission; total and status are derived. */
  datatype CommissionFields = CommissionFields(
    customerId: Id, productId: Id, shipmentId: Id, amount: int, quantity: int)

  /** `{ ...shipment, id, createdAt }`: a shipment record from the caller's fields. */
  function NewShipment(id: Id, f: ShipmentFields, now: Time): Shipment {
    Shipment(id, f.customerId, f.productId, f.trackingNumber, f.origin, f.destination,
             f.currentLocation, f.estimatedDelivery, f.route, now)
  }

  /** A commission record: the total is amount × quantity and it starts out pending. */
  function NewCommission(id: Id, f: CommissionFields, now: Time): Commission {
    Commission(id, f.customerId, f.productId, f.shipmentId, f.amount, f.quantity,
               f.amount * f.quantity, PaymentPending, now)
  }

  /** The value of one field after an object spread: the update's value if given, else the old one. */
  function Override<T>(current: T, given: Option<T>): T {
    if given.Some? then given.value else current
  }

  /** `{ ...customer, ...updates }` */
  function MergeCustomer(c: Customer, u: CustomerPatch): (r: Customer)
    ensures r.id == c.id && r.createdAt == c.createdAt
  {
    c.(walletAddress := Override(c.walletAddress, u.walletAddress),
       name := Override(c.name, u.name),
       email := Override(c.email, u.email),
       phone := Override(c.phone, u.phone),
       address := Override(c.address, u.address))
  }

  /** `{ ...product, ...updates }` */
  function MergeProduct(p: Product, u: ProductPatch): (r: Product)
    ensures r.id == p.id && r.createdAt == p.createdAt
  {
    p.(customerId := Override(p.customerId, u.customerId),
       name := Override(p.name, u.name),
       description := Override(p.description, u.description),
       quantity := Override(p.quantity, u.quantity),
       status := Override(p.status, u.status),
       origin := if u.origin.Some? then u.origin else p.origin,
       destination := if u.destination.Some? then u.destination else p.destination)
  }

  /** Merging the same update twice gives what merging it once gives. */
  lemma MergeIdempotent(c: Customer, u: CustomerPatch, p: Product, v: ProductPatch)
    ensures MergeCustomer(MergeCustomer(c, u), u) == MergeCustomer(c, u)
    ensures MergeProduct(MergeProduct(p, v), v) == MergeProduct(p, v)
  {
  }

  /** JavaScript truthiness of an optional string: present and not empty. */
  predicate Truthy(s: Option<string>) {
    s.Some? && s.value != ""
  }

  predicate IsDigit(ch: char) {
    '0' <= ch <= '9'
  }

  function DigitChar(d: nat): (ch: char)
    requires d < 10
    ensures IsDigit(ch)
  {
    ['0', '1', '2', '3', '4', '5', '6', '7', '8', '9'][d]
  }

  /** The number a string of decimal digits denotes (most significant digit first). */
  function DigitsValue(s: string): nat
    requires forall i :: 0 <= i < |s| ==> IsDigit(s[i])
  {
    if |s| == 0 then 0
    else
      assert IsDigit(s[|s| - 1]);
      10 * DigitsValue(s[..|s| - 1]) + (s[|s| - 1] as int - '0' as int)
  }

  /** Decimal notation of a natural number, as a template literal prints it. */
  function Decimal(n: nat): (s: string)
    ensures |s| >= 1
    ensures forall i :: 0 <= i < |s| ==> IsDigit(s[i])
  {
    if n < 10 then [DigitChar(n)] else Decimal(n / 10) + [DigitChar(n % 10)]
  }

  /** Reading the printed digits back gives the number. */
  lemma {:induction false} DecimalRoundTrip(n: nat)
    ensures DigitsValue(Decimal(n)) == n
  {
    var s := Decimal(n);
    if n >= 10 {
      assert s[..|s| - 1] == Decimal(n / 10);
      DecimalRoundTrip(n / 10);
    }
  }

  /** Distinct numbers print differently. */
  lemma DecimalInjective(a: nat, b: nat)
    requires Decimal(a) == Decimal(b)
    ensures a == b
  {
    DecimalRoundTrip(a);
    DecimalRoundTrip(b);
  }

  /** `TRK-${Date.now()}` */
  function TrackingNumber(now: Time): (t: string)
    ensures |t| > 4 && t[..4] == "TRK-"
    ensures forall i :: 4 <= i < |t| ==> IsDigit(t[i])
  {
    "TRK-" + Decimal(now)
  }

  /** Tracking numbers generated at different times differ; two made in the same millisecond coincide. */
  lemma TrackingNumberInjective(a: Time, b: Time)
    ensures TrackingNumber(a) == TrackingNumber(b) <==> a == b
  {
    if TrackingNumber(a) == TrackingNumber(b) {
      assert TrackingNumber(a)[4..] == Decimal(a);
      assert TrackingNumber(b)[4..] == Decimal(b);
      DecimalInjective(a, b);
    }
  }

  /** A location in the default country with status pending. */
  function PendingAt(city: string, at: Time): Location {
    Location(city, DefaultCountry, at, Pending)
  }

  /**
   * The shipment a newly added product gets when it names both an origin
   * and a destination: pending at the origin, with that one entry as its
   * route, due three days later.
   */
  function AutoShipmentFields(p: Product, now: Time): ShipmentFields
    requires Truthy(p.origin) && Truthy(p.destination)
  {
    ShipmentFields(
      p.customerId, p.id, TrackingNumber(now),
      PendingAt(p.origin.value, now),
      PendingAt(p.destination.value, now + DeliveryLeadTime),
      PendingAt(p.origin.value, now),
      now + DeliveryLeadTime,
      [PendingAt(p.origin.value, now)])
  }

  /**
   * What a shipment status update does to an undelivered shipment: the given
   * location becomes the current one and is appended to the route.
   */
  function Move(sh: Shipment, location: Location): Shipment {
    sh.(currentLocation := location, route := sh.route + [location])
  }

  /**
   * What a product status update does to the shipment it cascades to: the
   * current location takes the status and the time, and a route entry at the
   * same city and country is appended.
   */
  function Cascade(sh: Shipment, s: Status, now: Time): Shipment {
    var here := sh.currentLocation;
    sh.(currentLocation := here.(status := s, timestamp := now),
        route := sh.route + [Location(here.city, here.country, now, s)])
  }
}
