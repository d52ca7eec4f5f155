# kuzenler data store, in Dafny

kuzenler is a cargo-tracking web application for customers who pay with
Stellar (XLM) wallets. Its whole business state lives in one in-memory
`DataStore` (`frontend/lib/store.ts`). The store holds four tables in
insertion order: customers, products, shipments and commissions. It also
holds a set of administrator wallets. Its mutators carry the business rules:

- a product that names an origin and a destination gets a shipment at once;
- every shipment of a known product books a commission of 0.0001 XLM per unit;
- a delivered shipment accepts no further moves;
- a delivered product cannot be deleted;
- a product status update cascades to the first shipment of that product.

The views read the store through queries: lookup by id, lookup by wallet,
per-customer lists, and commission totals.

This project models that store:

- `ordered_map.dfy`: the JavaScript `Map` as a finite map with an insertion
  order (`OrderedMap.OMap`). `set` on a present key keeps that key's position.
  `delete` removes the key from the order.
- `sequences.dfy`: `Array.prototype.find` (as a first index) and `filter`.
- `entities.dfy`: the records, the fixed values (the two admin wallets, the
  fee, the default country, the three-day lead time), the object-spread
  merges, the `TRK-` tracking number, the automatic shipment, and the
  status cascade applied to one shipment.
- `ledger.dfy`: commission totals, and marking a commission as paid.
- `store.dfy`: the `DataStore` class. It has one `OMap` field per table and
  a `clock` field that supplies fresh ids. Its invariant `Valid()` says:
  - every table is a well-formed ordered map;
  - every record is stored under its own id, and every id is below `clock`;
  - every commission is booked against a stored shipment with the same
    product and customer, at the fixed fee;
  - no shipment has two commissions.
- `scenarios.dfy`: client code that uses only the public methods. It covers
  the sample data the application seeds at start-up, and short runs that
  show what callers can rely on. For example, the sample data's first
  product is billed twice: once for its automatic shipment and once for the
  hand-written one.
- `shipment_history.dfy` and `timestamp_ids.dfy`: the two findings below,
  each with the behaviour as written and the corrected model.

Representation choices:

- Ids are naturals drawn from `clock`, not `prefix_${Date.now()}` strings.
- Times are milliseconds, and each operation takes the current time as a
  parameter `now`.
- Money is counted in integer units of 0.0001 XLM, so the fee per unit is 1.
- Product and location statuses share one type, `Status`. Callers pass
  shipment statuses (including `delayed`) to the product status update.

## Model

| member | source | states |
|---|---|---|
| OrderedMap.OMap.Get | frontend/lib/store.ts:115-117 | `Map.get` answers exactly for keys present, and then with the value stored under the key |
| OrderedMap.OMap.Put | frontend/lib/store.ts:107 | `Map.set` keeps the map well formed and maps the key to the new value |
| OrderedMap.OMap.Delete | frontend/lib/store.ts:241 | `Map.delete` keeps the map well formed and removes exactly that key |
| OrderedMap.PutNewAppends | frontend/lib/store.ts:107 | setting an absent key appends it and its value at the end of the iteration order |
| OrderedMap.PutExistingKeepsPosition | frontend/lib/store.ts:126-127 | setting a present key replaces its value in place; the order and all other values are kept |
| OrderedMap.DeleteRemovesOne | frontend/lib/store.ts:241 | deleting a present key removes exactly its value from the iteration order |
| OrderedMap.DeleteAbsent | frontend/lib/store.ts:241 | deleting an absent key changes nothing |
| Sequences.FirstIndex | frontend/lib/store.ts:111-113 | `find`: none exactly when no element matches; otherwise a match with no match before it |
| Sequences.FirstIndexUnique | frontend/lib/store.ts:111-113 | a matching position with no earlier match is the one `find` returns |
| Sequences.Filter | frontend/lib/store.ts:219-221 | `filter` returns a subsequence of the input, in the input's order, made of elements that pass and holding every element that passes |
| Sequences.FilterCounts | frontend/lib/store.ts:219-221 | `filter` holds each element that passes exactly as often as the input does, and no other element |
| Sequences.FilterKeepsAll | frontend/lib/store.ts:317-319 | filtering a list whose every element passes gives the list back |
| Sequences.FilterAppend | frontend/lib/store.ts:309-311 | filtering distributes over concatenation |
| Entities.MergeCustomer | frontend/lib/store.ts:123-129 | a customer patch never changes the id or creation time |
| Entities.MergeProduct | frontend/lib/store.ts:223-229 | a product patch never changes the id or creation time |
| Entities.MergeIdempotent | frontend/lib/store.ts:123-129 | applying the same patch twice gives what applying it once gives |
| Entities.Decimal | frontend/lib/store.ts:144 | the printed number is a non-empty string of decimal digits |
| Entities.DecimalRoundTrip | frontend/lib/store.ts:144 | reading the printed digits back gives the number |
| Entities.DecimalInjective | frontend/lib/store.ts:144 | distinct numbers print differently |
| Entities.TrackingNumber | frontend/lib/store.ts:144 | a generated tracking number is "TRK-" followed by digits |
| Entities.TrackingNumberInjective | frontend/lib/store.ts:144 | two generated tracking numbers are equal if and only if they were made in the same millisecond |
| Ledger.TotalAmountAppend | frontend/lib/store.ts:313-315 | the total of two lists of commissions is the sum of their totals |
| Ledger.TotalQuantityAppend | frontend/lib/store.ts:313-315 | the quantity of two lists of commissions is the sum of their quantities |
| Ledger.TotalIsFeeTimesQuantity | frontend/lib/store.ts:297-307 | over well-formed commissions, the summed totals are the fee times the summed quantities |
| Ledger.PendingPlusPaid | frontend/lib/store.ts:321-323 | the pending total and the paid total add up to the whole ledger |
| Ledger.FilteredTotalAfterUpdate | frontend/lib/store.ts:325-332 | replacing one commission moves any filtered total by the old one's share out and the new one's share in |
| Ledger.MarkPaid | frontend/lib/store.ts:325-332 | paying keeps the table's order; an unknown id changes nothing; a known one changes only its own status |
| Ledger.MarkPaidIdempotent | frontend/lib/store.ts:325-332 | paying a commission twice is the same as paying it once |
| Ledger.PendingTotalAfterMarkPaid | frontend/lib/store.ts:321-332 | paying lowers the pending total by exactly the commission's total if it was pending, else not at all |
| Ledger.CustomerTotalAfterMarkPaid | frontend/lib/store.ts:309-332 | paying leaves every customer's commission total unchanged |
| Store.CascadeFirst | frontend/lib/store.ts:190-210 | the cascade keeps the shipments table well formed and in the same order |
| Store.CascadeFirstChangesOnlyFirstMatch | frontend/lib/store.ts:190-210 | a product status update changes only the first shipment of that product: its current location takes the status and time, and its route grows by one entry at the same place; with no such shipment nothing changes |
| Store.LedgerKeptWhenLinksKept | frontend/lib/store.ts:245-266 | shipment rewrites that keep each shipment's product and customer keep every commission booked |
| Store.ConsistentAfterShipmentRewrite | frontend/lib/store.ts:276-290 | rewriting a shipment with the same id, product and customer keeps the store invariant |
| Store.ConsistentAfterProductRewrite | frontend/lib/store.ts:179-189 | rewriting a product under its own id keeps the store invariant |
| Store.ConsistentAfterMarkPaid | frontend/lib/store.ts:325-332 | paying a commission keeps the store invariant |
| Store.ConsistentAfterNewShipment | frontend/lib/store.ts:245-250 | storing a shipment under a fresh id keeps the invariant, and no commission refers to it yet |
| Store.DataStore.constructor | frontend/lib/store.ts:64-77 | a new store is valid, with empty tables |
| Store.DataStore.IsAdmin | frontend/lib/store.ts:96-98 | a wallet is an administrator exactly when it is one of the two wallets registered at construction |
| Store.DataStore.AddCustomer | frontend/lib/store.ts:101-109 | the customer is stored under a fresh id and appended; if no earlier customer had the wallet, a wallet lookup now finds this one, and otherwise it still finds the earlier one |
| Store.DataStore.GetCustomerByWallet | frontend/lib/store.ts:111-113 | none exactly when no customer has the wallet; otherwise the first customer in insertion order that has it |
| Store.DataStore.GetCustomer | frontend/lib/store.ts:115-117 | found exactly when the id is stored, and then it is the stored customer with that id |
| Store.DataStore.UpdateCustomer | frontend/lib/store.ts:123-129 | an unknown id changes nothing; a known one gets the merged record in place, with id, order and other tables kept |
| Store.DataStore.AddProduct | frontend/lib/store.ts:132-176 | the product is appended under a fresh id; with both origin and destination set it also gets a pending shipment at the origin, with a one-entry route and a "TRK-" number, and that shipment books a commission for the product's quantity; otherwise nothing else changes |
| Store.DataStore.UpdateProductStatus | frontend/lib/store.ts:179-213 | an unknown id changes nothing; a known product takes the status in place, and the shipments table becomes the cascade to the product's first shipment |
| Store.DataStore.GetProduct | frontend/lib/store.ts:215-217 | found exactly when the id is stored, and then it is the stored product with that id |
| Store.DataStore.GetProductsByCustomer | frontend/lib/store.ts:219-221 | the customer's stored products in insertion order, each as often as it is stored, and no others |
| Store.DataStore.UpdateProduct | frontend/lib/store.ts:223-229 | an unknown id changes nothing; a known one gets the merged record in place, with id, order and other tables kept |
| Store.DataStore.DeleteProduct | frontend/lib/store.ts:231-242 | succeeds exactly for a stored product that is not delivered, removing only it from the order; its shipments and commissions remain |
| Store.DataStore.AddShipment | frontend/lib/store.ts:245-266 | the shipment is appended under a fresh id; a commission for it exists exactly when the product is known, booked at the fee for the product's quantity |
| Store.DataStore.AddCommission | frontend/lib/store.ts:297-307 | the commission is appended under a fresh id, pending, with total equal to amount times quantity |
| Store.DataStore.GetShipment | frontend/lib/store.ts:268-270 | found exactly when the id is stored, and then it is the stored shipment with that id |
| Store.DataStore.GetShipmentsByCustomer | frontend/lib/store.ts:272-274 | the customer's stored shipments in insertion order, each as often as it is stored, and no others |
| Store.DataStore.UpdateShipmentStatus | frontend/lib/store.ts:276-290 | refused exactly for an unknown or delivered shipment, with nothing changed; otherwise the location becomes current and is appended to the route, in place |
| Store.DataStore.GetCommissionsByCustomer | frontend/lib/store.ts:309-311 | the customer's stored commissions in insertion order, each as often as it is stored, and no others |
| Store.DataStore.GetPendingCommissions | frontend/lib/store.ts:317-319 | the stored commissions still pending, in insertion order, each as often as it is stored, and no others |
| Store.DataStore.LedgerWellFormed | frontend/lib/store.ts:297-307 | every stored commission has the fixed fee and total equal to fee times quantity |
| Store.DataStore.GetTotalCommissions | frontend/lib/store.ts:313-315 | a customer's total is the fee times the quantities of that customer's commissions |
| Store.DataStore.GetTotalPendingCommissions | frontend/lib/store.ts:321-323 | the pending total is the ledger total less what is paid, and the fee times the pending quantities |
| Store.DataStore.MarkCommissionAsPaid | frontend/lib/store.ts:325-332 | only that commission's status changes; unknown ids give nothing; the pending total falls by its total if it was pending; no customer's total moves |
| Scenarios.InitializeSampleData | frontend/lib/store.ts:343-424 | after seeding, both sample wallets are found, and the pending total is four units: two for each of the first product's two shipments |
| Scenarios.ProductWithRouteGetsShipment | frontend/lib/store.ts:132-176 | a product from Izmir to Ankara gets one shipment of its own, pending at Izmir, with a one-entry route and a "TRK-" number |
| Scenarios.DeliveredShipmentIsFrozen | frontend/lib/store.ts:276-290 | two moves grow the route by two; once delivered, a further move is refused |
| Scenarios.StatusUpdateReachesFirstShipmentOnly | frontend/lib/store.ts:190-210 | of two shipments of one product, a product status update reaches the first only, and the second stays as it was |
| Scenarios.ProductUpdateBypassesDeliveredGuard | frontend/lib/store.ts:179-290 | a product status update reaches a delivered shipment and can make it pending, after which moves are accepted again |
| ShipmentHistory.RouteOnlyGrows | frontend/lib/store.ts:196-206 | in the model, every move or cascade adds exactly one route entry and keeps the recorded ones; a move records its location verbatim |
| ShipmentHistory.AsWrittenRewritesRecordedMove | frontend/lib/store.ts:286-287 | as written, a cascade after a move overwrites the route entry recorded for the move; the model keeps it |
| TimestampIds.SameMillisecondKeepsLast | frontend/lib/store.ts:101-107 | as written, two records added to one table in the same millisecond leave only the second |
| TimestampIds.SeedingLosesFirstCustomer | frontend/lib/store.ts:343-359 | as written, if the two sample customers are added in the same millisecond, only the second remains, and the first wallet is no longer found |

## Left out

- `loadAdminConfig` (store.ts:79-94) reads a browser global and is never called. The admin set is the constructor's two wallets.
- The `typeof window` guard around seeding and the `console.warn` and `console.log` calls are left out. They are I/O.
- `getAllCustomers`, `getAllShipments` and `getAllCommissions` return the table values in order. In the model that is `Values()` of the table field, so they are not separate members.
- Clock and ids: `Date.now()` and `new Date()` become the `now` parameter. Ids become naturals from `clock`. The id scheme as written is under Findings.
- Money: XLM amounts are JavaScript floats in the source. The model uses integers in units of 0.0001 XLM, so floating-point rounding is not modelled.
- Quantities are unbounded integers. The source takes any JavaScript number.
- Store.DataStore.UpdateCustomer: a patch carries the data fields only. Overriding `id` or `createdAt`, and spreading an explicit `undefined`, are not modelled.
- Store.DataStore.UpdateProduct: a patch carries the data fields only. Overriding `id` or `createdAt`, and spreading an explicit `undefined`, are not modelled.
- Records are values. The source returns the stored objects themselves, so callers can mutate the tables through them. Only the case inside the store is modelled (see Findings).
- Scenarios.InitializeSampleData: the postcondition states wallet lookups and the pending total. It does not list every field of every seeded record.
- The other files of the repository are not part of this model. That covers the pages and components, wallet access, authentication hooks and theme or language contexts.

## Findings

| source | as written | input that shows it | evidently intended | confidence | as-written member | corrected member |
|---|---|---|---|---|---|---|
| frontend/lib/store.ts:104 | ids are a fixed prefix and `Date.now()` (also lines 135, 248 and 300), so two records added to one table in the same millisecond share an id, and the second replaces the first | the sample seeding adds `GDB4K2` and `GDFX9L` one after the other; in one millisecond, only `GDFX9L` is left and `getCustomerByWallet("GDB4K2")` is undefined | every added record is kept under an id of its own | high; not executed | TimestampIds.SeedingLosesFirstCustomer | Store.DataStore.AddCustomer |
| frontend/lib/store.ts:286-287 | `updateShipmentStatus` stores one object as the current location and as the last route entry; the cascade in `updateProductStatus` then sets status and time on that object, (lines 196-197), which rewrites the recorded route entry | move a pending shipment to Eskişehir, in transit at t1; then set its product to delivered at t2; the route entry for the move now reads delivered at t2 | the route is a history: recorded entries stay as they were and each update appends one | high; not executed | ShipmentHistory.AsWrittenRewritesRecordedMove | ShipmentHistory.RouteOnlyGrows |
