/**
 * Client code driving the store through the method surface only: the
 * sample data the application seeds at start-up, and short scenarios that
 * show what callers can rely on.
 */
module Scenarios {
  import opened Options
  import opened Entities
  import opened Ledger
  import opened Store

  const Day: nat := 24 * 60 * 60 * 1000

  /**
   * A new store with the application's sample data: two customers, a product
   * with a route (which gets a shipment and a commission), a product without
   * one, and a second, hand-written shipment for the first product, which
   * books a second commission for the same two units.
   * `now` is at least a week after the epoch, since the seed dates one
   * route entry seven days back.
   */
  method InitializeSampleData(now: Time) returns (store: DataStore)
    requires now >= 7 * Day
    ensures fresh(store) && store.Valid()
    ensures store.GetCustomerByWallet("GDB4K2").Some? && store.GetCustomerByWallet("GDFX9L").Some?
    ensures store.GetTotalPendingCommissions() == 4 * CommissionPerProduct
  {
    store := new DataStore();
    var customer1, customer2 := SeedCustomers(store, now);
    var product1, commission1 := SeedProducts(store, customer1.id, customer2.id, now);
    var commission2 := SeedShipment(store, customer1.id, product1, commission1, now);
    Sequences.FilterKeepsAll(store.commissions.Values(), IsPending);
  }

  /**
   * The hand-written second shipment of the first product, which books a
   * second commission for the product's two units.
   */
  method SeedShipment(store: DataStore, customer1: Id, product1: Product, commission1: Commission, now: Time)
    returns (commission2: Commission)
    requires now >= 7 * Day
    requires store.Valid()
    requires product1.id in store.products.entries && store.products.entries[product1.id] == product1
    requires product1.customerId == customer1 && product1.quantity == 2
    requires commission1.status == PaymentPending && commission1.quantity == 2
    requires store.commissions.Values() == [commission1]
    modifies store
    ensures store.Valid()
    ensures store.customers == old(store.customers)
    ensures store.commissions.Values() == [commission1, commission2]
    ensures forall i :: 0 <= i < |store.commissions.keys| ==> IsPending(store.commissions.Values()[i])
    ensures TotalQuantity(store.commissions.Values()) == 4
  {
    var shipment := store.AddShipment(
      ShipmentFields(customer1, product1.id, "TRK001",
                     Location("Shanghai", "Çin", now - 7 * Day, Pending),
                     Location("İstanbul", "Türkiye", now + 3 * Day, InTransit),
                     Location("Dubai", "UAE", now, InTransit),
                     now + 3 * Day,
                     [Location("Shanghai", "Çin", now - 7 * Day, Pending),
                      Location("Hong Kong", "Hong Kong", now - 5 * Day, InTransit),
                      Location("Dubai", "UAE", now, InTransit)]),
      now);
    commission2 :=
      NewCommission(shipment.id + 1, CommissionFields(customer1, product1.id, shipment.id, CommissionPerProduct, 2), now);
    TotalQuantityAppend([commission1], [commission2]);
    assert [commission1] + [commission2] == [commission1, commission2];
  }

  /** The two sample customers, each findable by wallet. */
  method SeedCustomers(store: DataStore, now: Time) returns (customer1: Customer, customer2: Customer)
    requires store.Valid() && store.customers.keys == [] && store.commissions.keys == []
    modifies store
    ensures store.Valid() && store.commissions.keys == []
    ensures store.GetCustomerByWallet("GDB4K2") == Some(customer1)
    ensures store.GetCustomerByWallet("GDFX9L") == Some(customer2)
  {
    customer1 := store.AddCustomer(
      CustomerFields("GDB4K2", "Ahmet Yılmaz", "ahmet@example.com", "+90 555 123 4567", "İstanbul, Türkiye"), now);
    customer2 := store.AddCustomer(
      CustomerFields("GDFX9L", "Fatma Öztürk", "fatma@example.com", "+90 555 987 6543", "Ankara, Türkiye"), now);
  }

  /**
   * The two sample products: the first, two units with a route, is booked a
   * commission at once; the second has no route and books nothing.
   */
  method SeedProducts(store: DataStore, customer1: Id, customer2: Id, now: Time)
    returns (product1: Product, commission1: Commission)
    requires store.Valid() && store.commissions.keys == []
    modifies store
    ensures store.Valid()
    ensures product1.id in store.products.entries && store.products.entries[product1.id] == product1
    ensures product1.customerId == customer1 && product1.quantity == 2
    ensures store.GetCustomerByWallet("GDB4K2") == old(store.GetCustomerByWallet("GDB4K2"))
    ensures store.GetCustomerByWallet("GDFX9L") == old(store.GetCustomerByWallet("GDFX9L"))
    ensures commission1 == NewCommission(product1.id + 2, CommissionFields(customer1, product1.id, product1.id + 1, CommissionPerProduct, 2), now)
    ensures store.commissions.Values() == [commission1]
  {
    product1 := store.AddProduct(
      ProductFields(customer1, "Elektronik Kitap Okuyucu", "E-ink display, 6 inç, WiFi bağlantı", 2,
                    InTransit, Some("Shanghai"), Some("İstanbul")), now);
    commission1 :=
      NewCommission(product1.id + 2, CommissionFields(customer1, product1.id, product1.id + 1, CommissionPerProduct, 2), now);
    var product2 := store.AddProduct(
      ProductFields(customer2, "Kablosuz Kulaklık", "Aktif gürültü engelleme, 30 saat pil ömrü", 1,
                    Pending, None, None), now);
  }

  /**
   * A product sent from Izmir to Ankara gets a shipment of its own: tracking
   * number "TRK-" and digits, pending at Izmir, with a one-entry route.
   */
  method ProductWithRouteGetsShipment(walletAddress: string, now: Time) returns (store: DataStore, p: Product, s: Shipment)
    ensures fresh(store) && store.Valid()
    ensures p.id in store.products.entries && p.status == Pending
    ensures s.id in store.shipments.entries && store.shipments.entries[s.id] == s && store.shipments.Values() == [s]
    ensures s.productId == p.id
    ensures |s.trackingNumber| > 4 && s.trackingNumber[..4] == "TRK-"
    ensures s.origin.city == "Izmir" && s.destination.city == "Ankara"
    ensures s.currentLocation == Location("Izmir", DefaultCountry, now, Pending)
    ensures s.route == [s.currentLocation]
  {
    store := new DataStore();
    var c := store.AddCustomer(CustomerFields(walletAddress, "Ayşe", "", "", ""), now);
    p := store.AddProduct(ProductFields(c.id, "Parcel", "", 1, Pending, Some("Izmir"), Some("Ankara")), now);
    s := NewShipment(p.id + 1, AutoShipmentFields(p, now), now);
  }

  /**
   * Two moves of a pending shipment grow its route by two; once the second
   * move has delivered it, a third move is refused and changes nothing.
   */
  method DeliveredShipmentIsFrozen(now: Time) returns (before: nat, after: nat, third: Option<Shipment>)
    ensures after == before + 2
    ensures third.None?
  {
    var store, p, s := ProductWithRouteGetsShipment("GC4", now);
    before := |s.route|;
    var first := store.UpdateShipmentStatus(s.id, Location("Eskişehir", DefaultCountry, now + 1, InTransit));
    var second := store.UpdateShipmentStatus(s.id, Location("Ankara", DefaultCountry, now + 2, Delivered));
    after := |second.value.route|;
    third := store.UpdateShipmentStatus(s.id, Location("Konya", DefaultCountry, now + 3, InTransit));
  }

  /**
   * The customer portal adds a product with a route (one shipment) and then
   * a second shipment for it. A later status update of the product reaches
   * only the first of the two; the second keeps its pending location.
   */
  method StatusUpdateReachesFirstShipmentOnly(now: Time)
    returns (first: Shipment, second: Shipment, firstAfter: Shipment, secondAfter: Shipment)
    ensures first.productId == second.productId
    ensures firstAfter.currentLocation.status == Delivered && |firstAfter.route| == |first.route| + 1
    ensures secondAfter == second && secondAfter.currentLocation.status == Pending
  {
    var store, p, s := ProductWithRouteGetsShipment("GC5", now);
    first := s;
    second := store.AddShipment(
      ShipmentFields(p.customerId, p.id, "TRK-482913", PendingAt("Izmir", now), PendingAt("Ankara", now),
                     PendingAt("Izmir", now), now + 3 * Day, [PendingAt("Izmir", now)]),
      now);
    var ss := store.shipments;
    assert ss.Values() == [first, second];
    var r := store.UpdateProductStatus(p.id, Delivered, now + 1);
    CascadeFirstChangesOnlyFirstMatch(ss, p.id, Delivered, now + 1);
    Sequences.FirstIndexUnique(ss.Values(), ForProduct(p.id), 0);
    firstAfter := store.shipments.Values()[0];
    secondAfter := store.shipments.Values()[1];
  }

  /**
   * The delivered guard sits in the shipment update only: a product status
   * update still cascades into a delivered shipment and can take it back to
   * pending, after which shipment updates are accepted again.
   */
  method ProductUpdateBypassesDeliveredGuard(now: Time) returns (refused: Option<Shipment>, accepted: Option<Shipment>)
    ensures refused.None?
    ensures accepted.Some?
  {
    var store, p, s := ProductWithRouteGetsShipment("GC6", now);
    var delivered := store.UpdateShipmentStatus(s.id, Location("Ankara", DefaultCountry, now + 1, Delivered));
    refused := store.UpdateShipmentStatus(s.id, Location("Konya", DefaultCountry, now + 2, InTransit));
    var ss := store.shipments;
    assert ss.Values() == [delivered.value];
    var r := store.UpdateProductStatus(p.id, Pending, now + 3);
    Sequences.FirstIndexUnique(ss.Values(), ForProduct(p.id), 0);
    CascadeFirstChangesOnlyFirstMatch(ss, p.id, Pending, now + 3);
    assert store.shipments.Values()[0] == store.shipments.entries[s.id];
    accepted := store.UpdateShipmentStatus(s.id, Location("Konya", DefaultCountry, now + 4, InTransit));
  }
}
