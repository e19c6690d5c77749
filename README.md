# Sales backend: order lifecycle and inventory engine

This project models the core of a small sales-management backend built on
Django. The backend keeps products, customers, sales batches, orders and
stock movement records.

- **Orders.** Each order belongs to a batch and sells a quantity of one
  product at a unit price. Every full save derives three amounts from the
  order's fields: the sales amount, the total cost and the gross profit.
- **Stock.** Orders take stock out of a product and put it back as their
  status changes. Stock records move stock in, move it out, or set it to a
  stated level.
- **Batch totals.** Every batch caches the profit of its confirmed,
  shipping and completed orders.
- **Around the engine.** Request validators and five permission rules guard
  the endpoints. An administration console offers its own bulk status
  actions.

The model holds the whole database as one object, `Engine.Store`. Its tables
are maps keyed by id. Each model-layer save and each endpoint is a method
that changes those maps in one atomic step. Each method states its answer
and the new contents of every table it may change; a new order or stock
record always gets an id no row has. The methods on orders, products,
batches and stock records keep the integrity invariant `Valid`; the two
account methods touch only the account table, which `Valid` does not
mention. Every method that saves orders also keeps `Consistent`, which
says every stored batch total equals the profit of its counted orders.
The console's bulk status actions (`SetStatusWhere`, `ConfirmOrders`,
`CancelOrders`, `MarkAsCompleted`) are the exception: they bypass the
order save, so they can leave a batch total stale, as
`AdminSite.BulkConfirmLeavesBatchTotalStale` shows.

Conventions:

- Money is held in integer cents, so the two-place decimals of the
  database are exact.
- Status strings are read into an enumeration of the eight choices. An
  extra case carries any other string, because the bulk order endpoint
  stores its status strings without checking them.
- The pure parts are functions with contracts and lemmas: derived amounts,
  stock effects, validators, permission rules, console badges and order
  numbers.

Modules:

- `Common`: ids, `Option`, `Result`, `Check` and the error vocabulary.
- `OrderStatus`: the status choices and their parsing.
- `Models`: the rows, the model-layer save rules and the batch profit.
- `Transitions`: the stock effect of a status change.
- `Validators`: the request serializers' checks and the product listing's
  derived values.
- `Permissions`: the five access rules.
- `AdminSite`: the console.
- `Engine`: the database object and its endpoints.

The model follows the code as written, including where it behaves in ways a reader might not expect:

- The stock record create endpoint needs an `after_stock` value for every
  type of movement, not only for `adjust`. The field is a required model
  field listed by the create serializer (`project/core/serializers.py:377`),
  and `StockRecord.after_stock` has no default.
- The stock-in endpoint records the movement on the product named in the
  address, whatever product the form names. It also answers with the stock
  read before the movement (`project/core/views.py:223`, `:229`).
- The bulk order endpoint does not check `other_costs`, and it stores the
  status strings it is given without checking them
  (`project/core/views.py:343-344`).
- A status change through the single-order or bulk endpoint writes only the
  status. The derived amounts stay as stored.
- An `out` movement is not floored at zero, and no missing status falls back
  to pending. Editing an order's quantity never moves stock.

## Model

| member | source | states |
|---|---|---|
| OrderStatus.Parse | project/core/models.py:102-111 | reading a stored status string gives a status whose name is that string; it is one of the eight choices exactly when the string is one of the choice names |
| OrderStatus.ParseName | project/core/models.py:102-111 | storing a well-formed status and reading it back gives the same status |
| OrderStatus.RequestedStatus | project/core/views.py:439-445 | a missing or empty status is refused as missing, any other string outside the choices as invalid, and a choice name is accepted as that status |
| Models.WithDerivedAmounts | project/core/models.py:172-177 | a full save sets sales amount = quantity × unit price, total cost = cost price × quantity + other costs, gross profit = sales − cost = quantity × (unit price − cost price) − other costs, and changes no other field |
| Models.ResaveIsIdempotent | project/core/models.py:172-177 | recomputing the derived amounts twice at the same cost price gives the same row as once |
| Models.Reserve | project/core/views.py:458-459 | taking `q` units lowers stock by `q`, raises sold by `q`, keeps stock + sold and every other product column |
| Models.Release | project/core/views.py:464-465 | giving back `q` units raises stock by `q`, lowers sold by `q`, keeps stock + sold and every other product column |
| Models.ReleaseUndoesReserve | project/core/views.py:458-466 | a release undoes a reservation of the same quantity, and the other way round |
| Models.AfterCreation | project/core/models.py:179-183 | a new order in a counted status lowers its product's stock by its quantity with no stock check and keeps stock + sold; a new order in any other status leaves the product unchanged |
| Models.StockAfter | project/core/models.py:222-229 | a new movement leaves `before + q` for `in`, `before − q` for `out` and the supplied target for `adjust`; an `adjust` without a target gives no stock |
| Models.InThenOutRestores | project/core/models.py:223-226 | an `in` then an `out` of the same quantity, in either order, restores the stock |
| Models.OutIsNotClamped | project/core/models.py:225-226 | an `out` larger than a non-negative stock drives it negative |
| Models.NoCountedOrdersNoProfit | project/core/models.py:92-94 | a batch with no counted orders, or none at all, has profit 0 |
| Models.BatchProfitAfterUpdate | project/core/models.py:92-94 | replacing one order moves its batch's profit by exactly the change of that order's counted gross profit |
| Models.BatchProfitAfterInsert | project/core/models.py:92-94 | inserting an order moves the profit by that order's counted gross profit |
| Models.OtherBatchUnaffected | project/core/models.py:92-94 | an order outside batch `b` before and after a change does not move `b`'s profit |
| Models.CountedProfit | project/core/models.py:92-94 | the loop over the order table returns the sum of gross profit over the batch's confirmed, shipping and completed orders |
| Transitions.SingleEffect | project/core/views.py:452-466 | the single-order endpoint takes stock exactly for pending → counted, gives it back exactly for counted → cancelled or refunded, and otherwise only sets the status |
| Transitions.BulkEffect | project/core/views.py:503-513 | the bulk endpoint takes stock exactly for pending → counted and never gives any back |
| Transitions.ApplyEffect | project/core/views.py:458-466 | applying an effect keeps stock + sold and every other product column, and "status only" leaves the product unchanged |
| Transitions.EndpointsDifferOnlyOnRelease | project/core/views.py:452-466 | the two endpoints decide a change differently exactly when a counted order is cancelled or refunded |
| Transitions.CheckedTakeKeepsStock | project/core/views.py:452-466 | with the stock check made before a take, a non-negative stock stays non-negative |
| Transitions.ForwardLifecycleBalances | project/core/views.py:452-466 | pending → confirmed → shipping → completed → cancelled or refunded leaves the order holding no stock |
| Transitions.RefundPathKeepsReservation | project/core/views.py:463 | confirmed → refund_requested → refunding → refunded never gives the stock back |
| Transitions.ReconfirmAfterCancelTakesNothing | project/core/views.py:452 | confirming a cancelled order counts it again without taking stock |
| Transitions.StaleBulkStock | project/core/views.py:498-513 | the bulk endpoint as written, checking and writing per-order product copies loaded before the loop; it keeps the product table's keys |
| Transitions.StaleBulkStockLosesUpdate | project/core/views.py:498-513 | with these copies, two pending orders of 3 and 4 units of a product with 10 in stock leave it at 6 in stock and 4 sold, and with 5 in stock both pass the check |
| Validators.OrderFieldsCheck | project/core/models.py:116-136 | passes exactly when quantity ≥ 1, unit price ≥ 0 and other costs ≥ 0 |
| Validators.OrderEditFieldsCheck | project/core/models.py:116-136 | the same bounds, checked only on the fields an update carries |
| Validators.OrderCreateCheck | project/core/serializers.py:284-291 | order creation is refused, with the current stock in the error, exactly when the status is counted and stock < quantity; other statuses always pass |
| Validators.CheckedCreationKeepsStock | project/core/serializers.py:284-291 | a creation that passes the check keeps a non-negative stock non-negative when saved |
| Validators.OrderUpdateCheck | project/core/serializers.py:300-314 | an update is refused exactly when the new status is counted and (the order was pending or the quantity grows) and stock < new quantity − (old quantity unless pending) |
| Validators.PendingUpdateIsCreationCheck | project/core/serializers.py:300-314 | for a pending order the update check equals the creation check |
| Validators.UnchangedUpdateNeedsNoStock | project/core/serializers.py:307-312 | an update of a non-pending order that leaves status and quantity alone always passes the stock check |
| Validators.StockRecordCheck | project/core/serializers.py:379-394 | `adjust` passes exactly with a target ≥ 0; `in` exactly with quantity > 0; `out` exactly with 0 < quantity ≤ stock, and an oversized `out` is refused as exceeding the stock |
| Validators.CheckedMovementKeepsStock | project/core/serializers.py:379-394 | a movement that passes the check can be stored and keeps a non-negative stock non-negative |
| Validators.StockInCheck | project/core/serializers.py:161 | the stock-in quantity passes exactly when it is at least 1 |
| Validators.EntryError | project/core/serializers.py:336-353 | one bulk entry has no error exactly when customer_id, product_id, quantity and unit_price are present, customer and product exist, quantity > 0 and unit price ≥ 0 |
| Validators.FirstEntryError | project/core/serializers.py:333-357 | no error exactly when every entry is valid; a reported error is the error of the first invalid entry, every entry before it being valid |
| Validators.ValidateOrders | project/core/serializers.py:320-357 | the list is accepted exactly when it has 1 to 100 entries, all valid, and is then returned unchanged |
| Validators.StockLevelOf | project/core/serializers.py:135-142 | out of stock exactly at stock 0, in stock exactly at stock ≥ 10, low otherwise |
| Validators.NegativeStockShowsLow | project/core/serializers.py:137-140 | an oversold, negative stock shows as low stock, not out of stock |
| Validators.TotalSoldValue | project/core/serializers.py:144-146 | the sold value is not negative when cost price and sold quantity are not |
| Validators.SoldValueFollowsReservations | project/core/serializers.py:146 | a reservation raises the sold value by cost price × quantity, and a release lowers it by the same |
| Validators.UserCheck | project/core/serializers.py:23-28 | user validation fails exactly when a confirmation is given and differs from the password (or the password is absent) |
| Permissions.AdminOrReadOnly | project/core/permissions.py:10-20 | anonymous: no; signed-in: yes for GET/HEAD/OPTIONS; otherwise yes exactly for a superuser or admin |
| Permissions.AdminOrOwnerView | project/core/permissions.py:27-29 | yes exactly for a signed-in user |
| Permissions.AdminOrOwnerObject | project/core/permissions.py:31-41 | yes for staff; for a row with a creator exactly when the user created it; yes for any other object |
| Permissions.AdminUserOnly | project/core/permissions.py:48-51 | yes exactly for a signed-in superuser or admin |
| Permissions.OwnerOrAdminView | project/core/permissions.py:58-59 | yes exactly for a signed-in user |
| Permissions.OwnerOrAdminObject | project/core/permissions.py:61-69 | an account: itself or staff; a row with a creator: its creator or staff; any other row: staff only |
| Permissions.CanManageStock | project/core/permissions.py:76-89 | anonymous: no; staff: yes; others: only for GET/HEAD/OPTIONS |
| Permissions.StaffPassesEverything | project/core/permissions.py:20-67 | a signed-in superuser or admin passes all five rules on every object |
| Permissions.AnonymousPassesNothing | project/core/permissions.py:12-78 | an anonymous request passes none of the five rules |
| Permissions.StockRuleIsReadOnlyRule | project/core/permissions.py:10-89 | the stock rule and the admin-or-read-only rule decide every request the same way |
| Permissions.OwnerOrAdminIsStricter | project/core/permissions.py:31-69 | the owner-or-admin object rule refuses all the admin-or-owner rule refuses, and more exactly on non-staff requests for rows without a creator and for other users' accounts |
| AdminSite.StockBadgeOf | project/core/admin.py:112-122 | the badge is "out of stock" exactly at 0, "sufficient" exactly at ≥ 10, "low" otherwise |
| AdminSite.BadgeAgreesWithStockLevel | project/core/admin.py:112-122 | the console badge and the API stock level classify every stock the same way |
| AdminSite.OrderNumber | project/core/admin.py:283-285 | the number is '#' followed by digits only, at least six of them |
| AdminSite.OrderNumberRoundTrip | project/core/admin.py:283-285 | the digits of an order number denote the order's id |
| AdminSite.OrderNumberInjective | project/core/admin.py:283-285 | two orders with the same number have the same id |
| AdminSite.MayAddUser | project/core/admin.py:34-36 | a console user may add users exactly when the staff-only rule lets them |
| AdminSite.MayDeleteUser | project/core/admin.py:38-40 | a console user may delete users exactly when the staff-only rule lets them |
| AdminSite.MayDeleteStockRecord | project/core/admin.py:465-467 | nobody may delete a stock record in the console |
| AdminSite.BulkSetStatus | project/core/admin.py:374-386 | the matching orders get the target status with every other field kept; every other order is unchanged |
| AdminSite.BulkConfirmLeavesBatchTotalStale | project/core/admin.py:374 | confirming in the console a batch's only selected pending order adds its gross profit to the batch's true profit, so a stored total that matched before no longer matches when that profit is not zero |
| Engine.RequestOrder | project/core/serializers.py:280-282 | the stored order keeps the request's batch, product and quantity, other costs default to 0 and the status to pending |
| Engine.OrderRequestCheck | project/core/serializers.py:284-291 | the create endpoint passes exactly when batch, customer and product exist, the status is a choice, the field bounds hold and a counted status finds stock ≥ quantity |
| Engine.EditCheck | project/core/serializers.py:294-314 | a full update (PUT) without quantity or unit price is refused as missing that field; otherwise, for full and partial (PATCH) updates alike, the update passes exactly when the status is a choice, the carried fields are in bounds and the update stock rule passes |
| Engine.EntryStatus | project/core/views.py:344 | a bulk entry's status is stored under its own string, unchecked, or is pending when it has none |
| Engine.DefaultStatusTakesNoStock | project/core/views.py:344 | entries with no status take no stock from any product |
| Engine.DefaultEntriesKeepProducts | project/core/views.py:336-349 | the bulk order endpoint, given entries with no status, leaves every product row unchanged |
| Engine.InsertedKeys | project/core/views.py:336-349 | the bulk order endpoint adds exactly the ids from the next free id, one per entry |
| Engine.InsertedKeepsOld | project/core/views.py:336-349 | every order stored before is kept unchanged |
| Engine.InsertedAt | project/core/views.py:336-349 | the order at the k-th new id is the row for entry k |
| Engine.AfterEntriesOneMore | project/core/views.py:336-349 | creating one more entry's order is one more creation-time reservation on its product |
| Engine.IdRunConsecutive | project/core/views.py:353 | the reported ids are consecutive from the first new id |
| Engine.AfterTakesOneMore | project/core/views.py:508-510 | one more take is one more reservation on that order's product |
| Engine.BulkStateKeepsTotals | project/core/views.py:514 | after the bulk loop every batch total that matched its orders still does |
| Engine.Store.CalculateTotalProfit | project/core/models.py:90-97 | stores in batch `b` and returns the profit of its counted orders; no other batch changes |
| Engine.Store.CreateOrder | project/core/models.py:170-189 | a new order gets the next id and derived amounts at the current cost price; a counted status takes its quantity with no stock check; the batch total is recomputed and every other total stays consistent |
| Engine.Store.ResaveOrder | project/core/models.py:170-189 | a full save of an existing order recomputes its derived amounts at the current cost price, never touches stock, and recomputes its batch total |
| Engine.Store.SaveStatus | project/core/views.py:468-469 | a status-only save changes only the status and recomputes its batch total; no other batch's profit moves |
| Engine.Store.MoveStock | project/core/views.py:458-466 | writes the product row the stock effect gives and changes no other product |
| Engine.Store.PlaceOrder | project/core/serializers.py:284-291 | the create endpoint succeeds exactly when its check passes, then stores the requested order at the next free id, reserves its stock for a counted status and recomputes its batch total; on refusal nothing changes; no non-negative stock goes negative |
| Engine.Store.UpdateOrder | project/core/serializers.py:294-314 | the update endpoint, full or partial, refuses exactly what its check refuses, else stores the edited order with recomputed amounts and batch total and never touches stock |
| Engine.Store.UpdateStatus | project/core/views.py:435-477 | missing or unknown status refused; pending → counted refused when stock < quantity, else takes it; counted → cancelled or refunded gives it back; otherwise only the status; the batch total is recomputed; refusal changes nothing |
| Engine.Store.BulkVisit | project/core/views.py:503-514 | one order skipped exactly when it needs stock it lacks; else its effect is applied, its status set and its batch total recomputed |
| Engine.Store.BulkLoop | project/core/views.py:498-518 | every selected order visited once, in any order, each updated or skipped as the bulk state records |
| Engine.Store.BatchUpdateStatus | project/core/views.py:479-528 | empty ids or missing status refused, then unknown status; updated + skipped = selected, updated count = orders whose status was set, skipped orders lacked stock, products show exactly the takes, nothing given back, touched batch totals recomputed |
| Engine.Store.AddOrders | project/core/views.py:322-356 | unknown batch or failing entry list refused with nothing changed; otherwise one order per entry in order at consecutive ids, reserving stock for counted entries with no check, the batch total recomputed, the new ids returned |
| Engine.Store.AddLoop | project/core/views.py:336-349 | after the loop the tables are the ones the bulk order state describes for all entries and the ids are consecutive |
| Engine.Store.CreateEntry | project/core/views.py:337-349 | creating entry `i` extends the bulk order state by one entry and one id |
| Engine.Store.RecordMovement | project/core/models.py:219-231 | a new record snapshots the prior stock, applies the movement, stores the stock after it and writes it to the product; an `adjust` without target stores nothing |
| Engine.Store.ResaveStockRecord | project/core/models.py:221 | re-saving a record keeps its snapshots and touches no product |
| Engine.Store.CreateStockRecord | project/core/serializers.py:373-394 | the product must exist and `after_stock` be given; the record check decides; an accepted record is stored under a new id as above; no non-negative stock goes negative |
| Engine.Store.StockIn | project/core/views.py:214-232 | the form's product must exist and the quantity be ≥ 1; an `in` record for the address's product is made under a new id and the stock before it reported |
| Engine.Store.SetPassword | project/core/views.py:97-107 | a missing or shorter-than-8 password is refused with nothing changed; otherwise the account's password is replaced |
| Engine.Store.ToggleActive | project/core/views.py:109-118 | flips the account's active flag and returns the new value |
| Engine.Store.SetStatusWhere | project/core/admin.py:374-386 | the console update sets the status of the matching orders, returns their count, and leaves products and batch totals alone |
| Engine.Store.ConfirmOrders | project/core/admin.py:372-376 | pending selections become confirmed, the count of them returned |
| Engine.Store.CancelOrders | project/core/admin.py:378-382 | pending or confirmed selections become cancelled, the count of them returned |
| Engine.Store.MarkAsCompleted | project/core/admin.py:384-388 | shipping selections become completed, the count of them returned |

## Left out

- HTTP and framework plumbing is not modelled: routing, pagination, search
  and filter settings, serializer output shapes and response messages.
  Login, logout, profile and token issuance are left out too.
- `get_queryset` restricts non-staff users to their own orders and batches.
  The bulk status endpoint therefore selects only the listed ids the user
  may see. The model selects every listed id that exists.
- The report and summary endpoints are left out. They aggregate stored
  fields, and their margins are floating point.
- The console's HTML and currency formatting is left out. Only the stock
  badge's classification and the order number are modelled.
- The test-data management command is not part of this model.
- Transactions, concurrency and locking are left out. Each operation is one
  atomic step.
- Password hashing and authentication are left out. The password is stored
  as given.
- The user serializer's `create` and `update` are left out. So is the
  8-character `min_length` of its password field, which only the reset
  endpoint's own check models.
- Integer widths and the `max_digits` bounds of the decimal columns are not
  modelled, and amounts are unbounded.
- The bulk order endpoint takes JSON values as they come. The model assumes
  integer quantities and prices; a string there would raise a server error.
- Remarks, order dates and timestamps are left out. So are plain
  create/update/delete of products, customers and batches, and the
  console's `save_model` setting the creator.
- Validators: DRF reports every failing field at once. The model reports the
  first failure, in the order the code checks them.
- Engine.Store.BatchUpdateStatus: the order in which the queryset visits
  the orders is left unspecified. The contract holds for every visiting
  order.
- Engine.Store.BatchUpdateStatus: the per-order `except` that records a
  failed save is not modelled, because no modelled step can raise.
- Engine.Store.BatchUpdateStatus: the error messages for skipped orders are
  reduced to the skipped ids.
- Engine.Store.BatchUpdateStatus reads each product's stock as it is when
  its order is reached, which is the corrected behaviour (see Findings).
  The as-written stale-copy behaviour is modelled separately.

## Findings

| source | as written | input that shows it | evidently intended | confidence | as-written member | corrected member |
|---|---|---|---|---|---|---|
| project/core/views.py:498-513 | the bulk status endpoint loads every selected order together with its own copy of its product before the loop; it checks and writes each order's copy, so orders of one product all see the stock from before the loop and the last write wins | two pending orders of 3 and 4 units of one product with 10 in stock, confirmed together: both become confirmed, but the product ends with 6 in stock and 4 sold; with 5 in stock both pass the check although only one fits | the product ends with 3 in stock and 7 sold, and the second order is checked against the stock the first one left | not executed; follows from the `select_related('product')` queryset at views.py:414 | Transitions.StaleBulkStockLosesUpdate | Engine.Store.BatchUpdateStatus |
