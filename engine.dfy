/** The sales database as one object, and the operations of the model layer
    and of the order, batch, product, stock-record and user endpoints that
    change it.  Each operation is one atomic step on the tables. */
module Engine {
  import opened Common
  import opened OrderStatus
  import opened Models
  import opened Transitions
  import opened Validators
  import AdminSite

  /** The parts of a user account the endpoints below change.  The password
      is kept as given; hashing it is not part of this model. */
  datatype Account = Account(username: string, isActive: bool, password: string)

  /** A request to the order create endpoint.  Other costs and the status may
      be omitted; the status is the raw string the client sent. */
  datatype OrderRequest = OrderRequest(
    batch: BatchId,
    customer: CustomerId,
    product: ProductId,
    quantity: int,
    unitPrice: int,
    otherCosts: Option<int>,
    status: Option<string>)

  /** A request to the order update endpoint: every field may be omitted. */
  datatype OrderEdit = OrderEdit(
    quantity: Option<int>,
    unitPrice: Option<int>,
    otherCosts: Option<int>,
    status: Option<string>)

  /** What the bulk status endpoint answers: how many orders it updated and
      which ones it skipped for want of stock. */
  datatype BulkOutcome = BulkOutcome(updated: nat, skipped: seq<OrderId>)

  /** What the stock-in endpoint answers: the record it made and the stock
      it reports. */
  datatype StockInReceipt = StockInReceipt(record: RecordId, reportedStock: int)

  // ---------------------------------------------------------------------
  // Orders built from requests

  /** The status a request asks for, parsed when one is given. */
  function RequestedChoice(status: Option<string>): Option<Status> {
    if status.Some? then Some(Parse(status.value)) else None
  }

  /** The order the create endpoint stores for a request: other costs
      default to 0 and the status to pending.  The derived amounts are
      filled in by the save. */
  function RequestOrder(req: OrderRequest, user: UserId): (o: Order)
    ensures o.status == (if req.status.Some? then Parse(req.status.value) else DefaultStatus)
    ensures o.otherCosts == (if req.otherCosts.Some? then req.otherCosts.value else 0)
    ensures o.batch == req.batch && o.product == req.product && o.quantity == req.quantity
  {
    Order(req.batch, req.customer, req.product, req.quantity, req.unitPrice,
          if req.otherCosts.Some? then req.otherCosts.value else 0,
          0, 0, 0,
          if req.status.Some? then Parse(req.status.value) else DefaultStatus,
          user)
  }

  /** The create endpoint's checks, in order: the batch, customer and product
      must exist; the status must be one of the choices; the field bounds
      must hold; and a counted status needs stock for the quantity. */
  function OrderRequestCheck(req: OrderRequest, batches: set<BatchId>, customers: set<CustomerId>,
                             products: map<ProductId, Product>): (r: Check)
    ensures r.Pass? <==>
      && req.batch in batches && req.customer in customers && req.product in products
      && (req.status.Some? ==> req.status.value in Choices)
      && req.quantity >= 1 && req.unitPrice >= 0
      && (req.otherCosts.Some? ==> req.otherCosts.value >= 0)
      && !(req.status.Some? && IsCounted(Parse(req.status.value))
           && products[req.product].currentStock < req.quantity)
  {
    if req.batch !in batches || req.customer !in customers || req.product !in products then Fail(NotFound)
    else if req.status.Some? && Parse(req.status.value).Other? then Fail(InvalidStatus)
    else
      var fields := OrderFieldsCheck(req.quantity, req.unitPrice,
                                     if req.otherCosts.Some? then req.otherCosts.value else 0);
      if fields.Fail? then fields
      else OrderCreateCheck(RequestedChoice(req.status), products[req.product], req.quantity)
  }

  /** The update endpoint's checks.  A full update (`partial` false) must
      carry the quantity and the unit price, the two order fields without a
      default; a partial update may leave out any field.  Then the status
      must be one of the choices, the fields it carries must be in bounds,
      and the stock rule of the update serializer must pass. */
  function EditCheck(current: Order, stock: int, edit: OrderEdit, partial: bool): (r: Check)
    ensures !partial && edit.quantity.None? ==> r == Fail(MissingField("quantity"))
    ensures !partial && edit.quantity.Some? && edit.unitPrice.None? ==> r == Fail(MissingField("unit_price"))
    ensures r.Pass? <==>
      && (!partial ==> edit.quantity.Some? && edit.unitPrice.Some?)
      && (edit.status.Some? ==> edit.status.value in Choices)
      && OrderEditFieldsCheck(edit.quantity, edit.unitPrice, edit.otherCosts).Pass?
      && OrderUpdateCheck(current, stock, RequestedChoice(edit.status), edit.quantity).Pass?
  {
    if !partial && edit.quantity.None? then Fail(MissingField("quantity"))
    else if !partial && edit.unitPrice.None? then Fail(MissingField("unit_price"))
    else if edit.status.Some? && Parse(edit.status.value).Other? then Fail(InvalidStatus)
    else
      var fields := OrderEditFieldsCheck(edit.quantity, edit.unitPrice, edit.otherCosts);
      if fields.Fail? then fields
      else OrderUpdateCheck(current, stock, RequestedChoice(edit.status), edit.quantity)
  }

  /** The order with the fields an edit carries replaced. */
  function Edited(current: Order, edit: OrderEdit): (o: Order)
    ensures o.batch == current.batch && o.product == current.product && o.customer == current.customer
  {
    current.(
      quantity := if edit.quantity.Some? then edit.quantity.value else current.quantity,
      unitPrice := if edit.unitPrice.Some? then edit.unitPrice.value else current.unitPrice,
      otherCosts := if edit.otherCosts.Some? then edit.otherCosts.value else current.otherCosts,
      status := if edit.status.Some? then Parse(edit.status.value) else current.status)
  }

  /** The status a bulk entry is stored with: the string it carries, unchecked,
      or pending. */
  function EntryStatus(e: OrderEntry): (s: Status)
    ensures WellFormed(s)
    ensures e.status.Some? ==> Name(s) == e.status.value
    ensures e.status.None? ==> s == Pending
  {
    Parse(if e.status.Some? then e.status.value else "pending")
  }

  /** An entry carrying the four fields the bulk endpoint requires. */
  predicate Filled(e: OrderEntry) {
    e.customerId.Some? && e.productId.Some? && e.quantity.Some? && e.unitPrice.Some?
  }

  /** The order the bulk endpoint creates for a validated entry. */
  function EntryOrder(b: BatchId, e: OrderEntry, user: UserId): Order
    requires Filled(e)
  {
    Order(b, e.customerId.value, e.productId.value, e.quantity.value, e.unitPrice.value,
          if e.otherCosts.Some? then e.otherCosts.value else 0,
          0, 0, 0, EntryStatus(e), user)
  }

  /** The units of product `p` one entry takes out of stock when created. */
  function EntryQuantity(e: OrderEntry, p: ProductId): int {
    if e.productId == Some(p) && e.quantity.Some? && IsCounted(EntryStatus(e)) then e.quantity.value else 0
  }

  /** The units of product `p` the first `n` entries take out of stock. */
  function CountedQuantity(entries: seq<OrderEntry>, n: nat, p: ProductId): int
    requires n <= |entries|
    decreases n
  {
    if n == 0 then 0
    else CountedQuantity(entries, n - 1, p) + EntryQuantity(entries[n - 1], p)
  }

  /** Entries that leave the status to its default take no stock at all. */
  lemma {:induction false} DefaultStatusTakesNoStock(entries: seq<OrderEntry>, n: nat, p: ProductId)
    requires n <= |entries|
    requires forall i :: 0 <= i < |entries| ==> entries[i].status.None?
    ensures CountedQuantity(entries, n, p) == 0
    decreases n
  {
    if n != 0 {
      assert EntryStatus(entries[n - 1]) == Pending;
      DefaultStatusTakesNoStock(entries, n - 1, p);
    }
  }

  /** Entries the bulk endpoint can create orders from, with costs read from
      `products`. */
  predicate Creatable(entries: seq<OrderEntry>, products: map<ProductId, Product>) {
    forall k :: 0 <= k < |entries| ==> Filled(entries[k]) && entries[k].productId.value in products
  }

  /** The order row the bulk endpoint stores for entry `e`: its derived
      amounts are computed at the cost price in `products`. */
  function CreatedRow(b: BatchId, e: OrderEntry, user: UserId, products: map<ProductId, Product>): Order
    requires Filled(e) && e.productId.value in products
  {
    WithDerivedAmounts(EntryOrder(b, e, user), products[e.productId.value].costPrice)
  }

  /** The rows the bulk endpoint stores for `entries`, one per entry and in
      the same order. */
  function CreatedRows(b: BatchId, entries: seq<OrderEntry>, user: UserId, products: map<ProductId, Product>)
    : (rows: seq<Order>)
    requires Creatable(entries, products)
    ensures |rows| == |entries|
    ensures forall k :: 0 <= k < |entries| ==> rows[k] == CreatedRow(b, entries[k], user, products)
  {
    seq(|entries|, k requires 0 <= k < |entries| => CreatedRow(b, entries[k], user, products))
  }

  /** The order table `orders` with the first `n` of `rows` stored at the
      consecutive ids from `first`. */
  ghost function Inserted(orders: map<OrderId, Order>, rows: seq<Order>, n: nat, first: OrderId): map<OrderId, Order>
    requires n <= |rows|
    decreases n
  {
    if n == 0 then orders else Inserted(orders, rows, n - 1, first)[first + n - 1 := rows[n - 1]]
  }

  /** Exactly the ids from `first` on, one per stored row, are added. */
  lemma {:induction false} InsertedKeys(orders: map<OrderId, Order>, rows: seq<Order>, n: nat, first: OrderId,
                                        id: OrderId)
    requires n <= |rows|
    ensures id in Inserted(orders, rows, n, first) <==> id in orders || first <= id < first + n
    decreases n
  {
    if n != 0 {
      InsertedKeys(orders, rows, n - 1, first, id);
    }
  }

  /** Every order already stored below `first` stays as it was. */
  lemma {:induction false} InsertedKeepsOld(orders: map<OrderId, Order>, rows: seq<Order>, n: nat, first: OrderId,
                                            id: OrderId)
    requires n <= |rows|
    requires id in orders && id < first
    ensures id in Inserted(orders, rows, n, first) && Inserted(orders, rows, n, first)[id] == orders[id]
    decreases n
  {
    if n != 0 {
      InsertedKeepsOld(orders, rows, n - 1, first, id);
    }
  }

  /** The order at id `first + k` is row `k`. */
  lemma {:induction false} InsertedAt(orders: map<OrderId, Order>, rows: seq<Order>, n: nat, first: OrderId, k: nat)
    requires n <= |rows| && k < n
    ensures first + k in Inserted(orders, rows, n, first) && Inserted(orders, rows, n, first)[first + k] == rows[k]
    decreases n
  {
    if k < n - 1 {
      InsertedAt(orders, rows, n - 1, first, k);
    }
  }

  /** The product rows after the orders for the first `n` entries are
      created: each product has given up, from stock to sold, the units its
      counted entries take. */
  ghost function AfterEntries(products: map<ProductId, Product>, entries: seq<OrderEntry>, n: nat): map<ProductId, Product>
    requires n <= |entries|
  {
    map p | p in products ::
      products[p].(currentStock := products[p].currentStock - CountedQuantity(entries, n, p),
                   soldQuantity := products[p].soldQuantity + CountedQuantity(entries, n, p))
  }

  /** Creating the order for one more entry is one more creation-time
      reservation on its product. */
  lemma AfterEntriesOneMore(products: map<ProductId, Product>, entries: seq<OrderEntry>, i: nat,
                            b: BatchId, user: UserId)
    requires i < |entries| && Filled(entries[i]) && entries[i].productId.value in products
    ensures
      var before := AfterEntries(products, entries, i);
      var pid := entries[i].productId.value;
      AfterEntries(products, entries, i + 1) == before[pid := AfterCreation(before[pid], EntryOrder(b, entries[i], user))]
  {
    var pid := entries[i].productId.value;
    var before := AfterEntries(products, entries, i);
    var lhs := AfterEntries(products, entries, i + 1);
    var rhs := before[pid := AfterCreation(before[pid], EntryOrder(b, entries[i], user))];
    forall p | p in products
      ensures lhs[p] == rhs[p]
    {
      assert CountedQuantity(entries, i + 1, p) == CountedQuantity(entries, i, p) + EntryQuantity(entries[i], p);
    }
    assert lhs.Keys == rhs.Keys;
  }

  /** The `count` consecutive order ids from `first`. */
  function IdRun(first: OrderId, count: nat): (ids: seq<OrderId>)
    ensures |ids| == count
  {
    if count == 0 then [] else IdRun(first, count - 1) + [first + count - 1]
  }

  /** The ids of a run are consecutive from `first`. */
  lemma {:induction false} IdRunConsecutive(first: OrderId, count: nat, k: nat)
    requires k < count
    ensures IdRun(first, count)[k] == first + k
  {
    if k < count - 1 {
      IdRunConsecutive(first, count - 1, k);
    }
  }

  /** Appending the next id to a run extends the run by one. */
  lemma IdRunOneMore(first: OrderId, count: nat, ids: seq<OrderId>, id: OrderId)
    requires ids == IdRun(first, count) && id == first + count
    ensures ids + [id] == IdRun(first, count + 1)
  {
  }

  /** What the bulk order endpoint has done after creating the orders for
      the first `i` entries, starting from the tables `o0`, `p0`, `b0` and
      the next free order id `n0`. */
  ghost predicate AddState(b: BatchId, entries: seq<OrderEntry>, user: UserId,
                           o0: map<OrderId, Order>, p0: map<ProductId, Product>, b0: map<BatchId, Batch>, n0: OrderId,
                           i: nat, orders: map<OrderId, Order>, products: map<ProductId, Product>,
                           batches: map<BatchId, Batch>, next: OrderId)
  {
    && i <= |entries| && Creatable(entries, p0) && b in b0
    && next == n0 + i
    && orders == Inserted(o0, CreatedRows(b, entries, user, p0), i, n0)
    && products == AfterEntries(p0, entries, i)
    && batches == (if i == 0 then b0 else b0[b := b0[b].(totalProfit := BatchProfit(orders, b))])
  }

  lemma AddStart(b: BatchId, entries: seq<OrderEntry>, user: UserId,
                 o0: map<OrderId, Order>, p0: map<ProductId, Product>, b0: map<BatchId, Batch>, n0: OrderId)
    requires Creatable(entries, p0) && b in b0
    ensures AddState(b, entries, user, o0, p0, b0, n0, 0, o0, p0, b0, n0)
  {
    assert AfterEntries(p0, entries, 0) == p0;
  }

  /** The bulk order endpoint's state after the order for entry `i` is
      created, in terms of the state before. */
  lemma AddStep(b: BatchId, entries: seq<OrderEntry>, user: UserId,
                o0: map<OrderId, Order>, p0: map<ProductId, Product>, b0: map<BatchId, Batch>, n0: OrderId,
                i: nat, orders: map<OrderId, Order>, products: map<ProductId, Product>,
                batches: map<BatchId, Batch>, next: OrderId,
                orders': map<OrderId, Order>, products': map<ProductId, Product>, batches': map<BatchId, Batch>)
    requires AddState(b, entries, user, o0, p0, b0, n0, i, orders, products, batches, next)
    requires i < |entries|
    requires
      var e := entries[i];
      var o := EntryOrder(b, e, user);
      && orders' == orders[next := WithDerivedAmounts(o, products[e.productId.value].costPrice)]
      && products' == products[e.productId.value := AfterCreation(products[e.productId.value], o)]
      && batches' == batches[b := batches[b].(totalProfit := BatchProfit(orders', b))]
    ensures AddState(b, entries, user, o0, p0, b0, n0, i + 1, orders', products', batches', next + 1)
  {
    var pid := entries[i].productId.value;
    assert pid in p0;
    assert products[pid].costPrice == p0[pid].costPrice;
    var rows := CreatedRows(b, entries, user, p0);
    assert rows[i] == WithDerivedAmounts(EntryOrder(b, entries[i], user), products[pid].costPrice);
    assert orders' == Inserted(o0, rows, i + 1, n0);
    AfterEntriesOneMore(p0, entries, i, b, user);
    TotalStep(b0, b, batches, i, BatchProfit(orders, b), BatchProfit(orders', b), batches');
  }

  /** Recomputing the batch total once more leaves only the latest total. */
  lemma TotalStep(b0: map<BatchId, Batch>, b: BatchId, batches: map<BatchId, Batch>, i: nat, total: int, total': int,
                  batches': map<BatchId, Batch>)
    requires b in b0
    requires batches == (if i == 0 then b0 else b0[b := b0[b].(totalProfit := total)])
    requires batches' == batches[b := batches[b].(totalProfit := total')]
    ensures batches' == b0[b := b0[b].(totalProfit := total')]
  {
  }

  /** Once every entry is created, in the terms the endpoint's contract uses. */
  lemma AddFinal(b: BatchId, entries: seq<OrderEntry>, user: UserId,
                 o0: map<OrderId, Order>, p0: map<ProductId, Product>, b0: map<BatchId, Batch>, n0: OrderId,
                 orders: map<OrderId, Order>, products: map<ProductId, Product>,
                 batches: map<BatchId, Batch>, next: OrderId)
    requires AddState(b, entries, user, o0, p0, b0, n0, |entries|, orders, products, batches, next)
    requires |entries| >= 1
    ensures Creatable(entries, p0) && next == n0 + |entries|
    ensures orders == Inserted(o0, CreatedRows(b, entries, user, p0), |entries|, n0)
    ensures products == AfterEntries(p0, entries, |entries|)
    ensures batches == b0[b := b0[b].(totalProfit := BatchProfit(orders, b))]
  {
  }

  /** The bulk endpoint, run on entries that all leave the status unset,
      creates pending orders and leaves every product row as it was. */
  lemma DefaultEntriesKeepProducts(products: map<ProductId, Product>, entries: seq<OrderEntry>)
    requires forall i :: 0 <= i < |entries| ==> entries[i].status.None?
    ensures AfterEntries(products, entries, |entries|) == products
  {
    forall p | p in products
      ensures CountedQuantity(entries, |entries|, p) == 0
    {
      DefaultStatusTakesNoStock(entries, |entries|, p);
    }
  }

  // ---------------------------------------------------------------------
  // Units taken by the bulk status endpoint

  /** The quantity of product `p` over the orders named by `ids`. */
  ghost function TakenQuantity(orders: map<OrderId, Order>, p: ProductId, ids: set<OrderId>): int
    requires ids <= orders.Keys
    decreases ids
  {
    if ids == {} then 0
    else
      var id :| id in ids;
      (if orders[id].product == p then orders[id].quantity else 0) + TakenQuantity(orders, p, ids - {id})
  }

  lemma {:induction false} TakenQuantitySplit(orders: map<OrderId, Order>, p: ProductId, ids: set<OrderId>, id: OrderId)
    requires ids <= orders.Keys && id in ids
    ensures TakenQuantity(orders, p, ids)
         == (if orders[id].product == p then orders[id].quantity else 0) + TakenQuantity(orders, p, ids - {id})
    decreases ids
  {
    var x :| x in ids && TakenQuantity(orders, p, ids)
                         == (if orders[x].product == p then orders[x].quantity else 0) + TakenQuantity(orders, p, ids - {x});
    if x != id {
      TakenQuantitySplit(orders, p, ids - {x}, id);
      TakenQuantitySplit(orders, p, ids - {id}, x);
      assert ids - {x} - {id} == ids - {id} - {x};
    }
  }

  /** The orders the bulk endpoint selects: the listed ids that exist. */
  function Selected(orders: map<OrderId, Order>, orderIds: seq<OrderId>): (ids: set<OrderId>)
    ensures ids <= orders.Keys
    ensures forall x :: x in ids <==> x in orderIds && x in orders
  {
    set x | x in orderIds && x in orders
  }

  /** The selected orders the bulk endpoint updated: all but the skipped. */
  function Settled(selected: set<OrderId>, skipped: seq<OrderId>): (ids: set<OrderId>)
    ensures ids <= selected
    ensures forall x :: x in ids <==> x in selected && x !in skipped
  {
    set x | x in selected && x !in skipped
  }

  /** Of the updated orders, those that took stock: pending orders moved to
      a counted status. */
  ghost function Taken(orders: map<OrderId, Order>, settled: set<OrderId>, t: Status): (ids: set<OrderId>)
    requires settled <= orders.Keys
    ensures ids <= settled
    ensures forall x :: x in ids <==> x in settled && BulkEffect(orders[x].status, t) == Take
  {
    set x | x in settled && BulkEffect(orders[x].status, t) == Take
  }

  /** The product rows after each order in `taken` has taken its quantity
      out of stock into the sold count. */
  ghost function AfterTakes(products: map<ProductId, Product>, orders: map<OrderId, Order>, taken: set<OrderId>)
    : (r: map<ProductId, Product>)
    requires taken <= orders.Keys
    ensures r.Keys == products.Keys
    ensures forall p :: p in r ==>
      r[p] == products[p].(currentStock := products[p].currentStock - TakenQuantity(orders, p, taken),
                           soldQuantity := products[p].soldQuantity + TakenQuantity(orders, p, taken))
  {
    map p | p in products ::
      products[p].(currentStock := products[p].currentStock - TakenQuantity(orders, p, taken),
                   soldQuantity := products[p].soldQuantity + TakenQuantity(orders, p, taken))
  }

  /** One more take is one more reservation on that order's product. */
  lemma AfterTakesOneMore(products: map<ProductId, Product>, orders: map<OrderId, Order>, taken: set<OrderId>, x: OrderId)
    requires taken <= orders.Keys && x in orders && x !in taken && orders[x].product in products
    ensures
      var before := AfterTakes(products, orders, taken);
      AfterTakes(products, orders, taken + {x})
        == before[orders[x].product := Reserve(before[orders[x].product], orders[x].quantity)]
  {
    var before := AfterTakes(products, orders, taken);
    var lhs := AfterTakes(products, orders, taken + {x});
    var rhs := before[orders[x].product := Reserve(before[orders[x].product], orders[x].quantity)];
    assert taken + {x} - {x} == taken;
    forall p | p in products
      ensures lhs[p] == rhs[p]
    {
      TakenQuantitySplit(orders, p, taken + {x}, x);
    }
    assert lhs.Keys == rhs.Keys;
  }

  /** The batches the orders `ids` belong to. */
  function BatchesOf(orders: map<OrderId, Order>, ids: set<OrderId>): (bs: set<BatchId>)
    requires ids <= orders.Keys
    ensures forall x :: x in ids ==> orders[x].batch in bs
  {
    set x | x in ids :: orders[x].batch
  }

  /** The batch rows after the totals of the batches `touched` have been
      recomputed over `orders`. */
  ghost function Recomputed(batches: map<BatchId, Batch>, orders: map<OrderId, Order>, touched: set<BatchId>)
    : (r: map<BatchId, Batch>)
    ensures r.Keys == batches.Keys
    ensures forall b :: b in r ==>
      r[b] == if b in touched then batches[b].(totalProfit := BatchProfit(orders, b)) else batches[b]
  {
    map b | b in batches :: if b in touched then batches[b].(totalProfit := BatchProfit(orders, b)) else batches[b]
  }

  /** Recomputing one more batch, after a change that moved no other
      batch's profit, is one more update of that batch's row. */
  lemma RecomputedOneMore(batches: map<BatchId, Batch>, orders: map<OrderId, Order>, orders': map<OrderId, Order>,
                          touched: set<BatchId>, c: BatchId)
    requires c in batches
    requires forall b :: b != c ==> BatchProfit(orders', b) == BatchProfit(orders, b)
    ensures
      var before := Recomputed(batches, orders, touched);
      Recomputed(batches, orders', touched + {c}) == before[c := before[c].(totalProfit := BatchProfit(orders', c))]
  {
    var before := Recomputed(batches, orders, touched);
    var lhs := Recomputed(batches, orders', touched + {c});
    var rhs := before[c := before[c].(totalProfit := BatchProfit(orders', c))];
    forall b | b in batches
      ensures lhs[b] == rhs[b]
    {
      if b != c {
        assert BatchProfit(orders', b) == BatchProfit(orders, b);
      }
    }
    assert lhs.Keys == rhs.Keys;
  }

  /** What the bulk endpoint has done after visiting the orders `done` of
      the selection, starting from the tables `o0`, `p0` and `b0`: the
      orders it updated (`settled`) carry the new status, those among them
      that took stock (`taken`) have moved their quantity from stock to
      sold, each skipped order lacked stock when it was reached, and the
      batches of the updated orders hold recomputed totals. */
  ghost predicate BulkState(o0: map<OrderId, Order>, p0: map<ProductId, Product>, b0: map<BatchId, Batch>, t: Status,
                            selected: set<OrderId>, done: set<OrderId>, settled: set<OrderId>, taken: set<OrderId>,
                            skipped: seq<OrderId>, updated: nat,
                            orders: map<OrderId, Order>, products: map<ProductId, Product>, batches: map<BatchId, Batch>)
  {
    && BulkCounts(o0, selected, done, settled, skipped, updated)
    && orders == WithStatus(o0, settled, t)
    && BulkProducts(o0, p0, t, settled, taken, skipped, products)
    && BulkBatches(o0, b0, settled, orders, batches)
  }

  /** Every visited order is either updated or skipped, once. */
  ghost predicate BulkCounts(o0: map<OrderId, Order>, selected: set<OrderId>, done: set<OrderId>,
                             settled: set<OrderId>, skipped: seq<OrderId>, updated: nat)
  {
    && done <= selected <= o0.Keys
    && settled <= done
    && (forall x :: x in done ==> (x in settled <==> x !in skipped))
    && (forall k :: 0 <= k < |skipped| ==> skipped[k] in done)
    && (forall j, k :: 0 <= j < k < |skipped| ==> skipped[j] != skipped[k])
    && updated == |settled| && updated + |skipped| == |done|
  }

  /** The product rows reflect exactly the takes of the updated orders, a
      skipped order's product lacks its quantity, and no stock that was not
      negative has become so. */
  ghost predicate BulkProducts(o0: map<OrderId, Order>, p0: map<ProductId, Product>, t: Status,
                               settled: set<OrderId>, taken: set<OrderId>, skipped: seq<OrderId>,
                               products: map<ProductId, Product>)
  {
    && settled <= o0.Keys
    && taken == Taken(o0, settled, t)
    && products == AfterTakes(p0, o0, taken)
    && (forall x :: x in skipped ==>
          x in o0 && o0[x].product in products
          && BulkEffect(o0[x].status, t) == Take && products[o0[x].product].currentStock < o0[x].quantity)
    && (forall p :: p in products && p0[p].currentStock >= 0 ==> products[p].currentStock >= 0)
  }

  /** The batches of the updated orders hold recomputed totals, and no other
      batch's profit has moved. */
  ghost predicate BulkBatches(o0: map<OrderId, Order>, b0: map<BatchId, Batch>, settled: set<OrderId>,
                              orders: map<OrderId, Order>, batches: map<BatchId, Batch>)
  {
    && settled <= o0.Keys
    && batches == Recomputed(b0, orders, BatchesOf(o0, settled))
    && (forall b :: b !in BatchesOf(o0, settled) ==> BatchProfit(orders, b) == BatchProfit(o0, b))
  }

  lemma BulkStart(o0: map<OrderId, Order>, p0: map<ProductId, Product>, b0: map<BatchId, Batch>, t: Status,
                  selected: set<OrderId>)
    requires selected <= o0.Keys
    ensures BulkState(o0, p0, b0, t, selected, {}, {}, {}, [], 0, o0, p0, b0)
  {
    assert WithStatus(o0, {}, t) == o0;
    forall p | p in p0
      ensures TakenQuantity(o0, p, {}) == 0
    {
    }
    assert AfterTakes(p0, o0, {}) == p0;
    assert Recomputed(b0, o0, BatchesOf(o0, {})) == b0;
  }

  /** Moving one order from the unvisited to the visited keeps the two a
      partition of the selection. */
  lemma VisitOne(selected: set<OrderId>, done: set<OrderId>, rest: set<OrderId>, x: OrderId)
    requires done !! rest && done + rest == selected && x in rest
    ensures (done + {x}) !! (rest - {x}) && (done + {x}) + (rest - {x}) == selected
    ensures rest - {x} == {} ==> done + {x} == selected
    ensures |rest - {x}| < |rest|
  {
  }

  /** Skipping an order for lack of stock changes no table. */
  lemma BulkSkipStep(o0: map<OrderId, Order>, p0: map<ProductId, Product>, b0: map<BatchId, Batch>, t: Status,
                     selected: set<OrderId>, done: set<OrderId>, settled: set<OrderId>, taken: set<OrderId>,
                     skipped: seq<OrderId>, updated: nat,
                     orders: map<OrderId, Order>, products: map<ProductId, Product>, batches: map<BatchId, Batch>,
                     x: OrderId)
    requires BulkState(o0, p0, b0, t, selected, done, settled, taken, skipped, updated, orders, products, batches)
    requires x in selected && x !in done && o0[x].product in products
    requires BulkEffect(o0[x].status, t) == Take && products[o0[x].product].currentStock < o0[x].quantity
    ensures BulkState(o0, p0, b0, t, selected, done + {x}, settled, taken, skipped + [x], updated,
                      orders, products, batches)
  {
    assert BulkCounts(o0, selected, done + {x}, settled, skipped + [x], updated);
    assert BulkProducts(o0, p0, t, settled, taken, skipped + [x], products);
  }

  lemma BulkCountsUpdate(o0: map<OrderId, Order>, selected: set<OrderId>, done: set<OrderId>,
                         settled: set<OrderId>, skipped: seq<OrderId>, updated: nat, x: OrderId)
    requires BulkCounts(o0, selected, done, settled, skipped, updated)
    requires x in selected && x !in done
    ensures BulkCounts(o0, selected, done + {x}, settled + {x}, skipped, updated + 1)
  {
  }

  lemma BulkProductsUpdate(o0: map<OrderId, Order>, p0: map<ProductId, Product>, t: Status,
                           settled: set<OrderId>, taken: set<OrderId>, skipped: seq<OrderId>,
                           products: map<ProductId, Product>, x: OrderId, products': map<ProductId, Product>)
    requires BulkProducts(o0, p0, t, settled, taken, skipped, products)
    requires x in o0 && x !in settled
    requires o0[x].product in p0 && o0[x].quantity >= 1
    requires BulkEffect(o0[x].status, t) == Take ==> products[o0[x].product].currentStock >= o0[x].quantity
    requires products' == products[o0[x].product :=
               ApplyEffect(products[o0[x].product], BulkEffect(o0[x].status, t), o0[x].quantity)]
    ensures BulkProducts(o0, p0, t, settled + {x},
                         if BulkEffect(o0[x].status, t) == Take then taken + {x} else taken,
                         skipped, products')
  {
    var o := o0[x];
    var taken' := if BulkEffect(o.status, t) == Take then taken + {x} else taken;
    assert taken' == Taken(o0, settled + {x}, t);
    if BulkEffect(o.status, t) == Take {
      AfterTakesOneMore(p0, o0, taken, x);
    }
  }

  lemma BulkBatchesUpdate(o0: map<OrderId, Order>, b0: map<BatchId, Batch>, settled: set<OrderId>,
                          orders: map<OrderId, Order>, batches: map<BatchId, Batch>,
                          x: OrderId, orders': map<OrderId, Order>, batches': map<BatchId, Batch>)
    requires BulkBatches(o0, b0, settled, orders, batches)
    requires x in o0 && o0[x].batch in b0
    requires batches' == batches[o0[x].batch := batches[o0[x].batch].(totalProfit := BatchProfit(orders', o0[x].batch))]
    requires forall c :: c != o0[x].batch ==> BatchProfit(orders', c) == BatchProfit(orders, c)
    ensures BulkBatches(o0, b0, settled + {x}, orders', batches')
  {
    var o := o0[x];
    RecomputedOneMore(b0, orders, orders', BatchesOf(o0, settled), o.batch);
    assert BatchesOf(o0, settled + {x}) == BatchesOf(o0, settled) + {o.batch};
  }

  /** Updating an order moves its stock if it takes some, sets its status and
      recomputes its batch. */
  lemma BulkUpdateStep(o0: map<OrderId, Order>, p0: map<ProductId, Product>, b0: map<BatchId, Batch>, t: Status,
                       selected: set<OrderId>, done: set<OrderId>, settled: set<OrderId>, taken: set<OrderId>,
                       skipped: seq<OrderId>, updated: nat,
                       orders: map<OrderId, Order>, products: map<ProductId, Product>, batches: map<BatchId, Batch>,
                       x: OrderId,
                       orders': map<OrderId, Order>, products': map<ProductId, Product>, batches': map<BatchId, Batch>)
    requires BulkState(o0, p0, b0, t, selected, done, settled, taken, skipped, updated, orders, products, batches)
    requires x in selected && x !in done
    requires o0[x].product in p0 && o0[x].batch in b0 && o0[x].quantity >= 1
    requires BulkEffect(o0[x].status, t) == Take ==> products[o0[x].product].currentStock >= o0[x].quantity
    requires orders' == orders[x := o0[x].(status := t)]
    requires products' == products[o0[x].product :=
               ApplyEffect(products[o0[x].product], BulkEffect(o0[x].status, t), o0[x].quantity)]
    requires batches' == batches[o0[x].batch := batches[o0[x].batch].(totalProfit := BatchProfit(orders', o0[x].batch))]
    requires forall c :: c != o0[x].batch ==> BatchProfit(orders', c) == BatchProfit(orders, c)
    ensures BulkState(o0, p0, b0, t, selected, done + {x}, settled + {x},
                      if BulkEffect(o0[x].status, t) == Take then taken + {x} else taken,
                      skipped, updated + 1, orders', products', batches')
  {
    BulkCountsUpdate(o0, selected, done, settled, skipped, updated, x);
    WithStatusOneMore(o0, settled, t, x);
    BulkProductsUpdate(o0, p0, t, settled, taken, skipped, products, x, products');
    BulkBatchesUpdate(o0, b0, settled, orders, batches, x, orders', batches');
  }

  /** The bulk state once every selected order is visited, in the terms the
      endpoint's contract uses. */
  lemma BulkFinal(o0: map<OrderId, Order>, p0: map<ProductId, Product>, b0: map<BatchId, Batch>, t: Status,
                  selected: set<OrderId>, settled: set<OrderId>, taken: set<OrderId>,
                  skipped: seq<OrderId>, updated: nat,
                  orders: map<OrderId, Order>, products: map<ProductId, Product>, batches: map<BatchId, Batch>)
    requires BulkState(o0, p0, b0, t, selected, selected, settled, taken, skipped, updated, orders, products, batches)
    ensures selected <= o0.Keys && settled == Settled(selected, skipped)
    ensures forall k :: 0 <= k < |skipped| ==> skipped[k] in selected
    ensures forall j, k :: 0 <= j < k < |skipped| ==> skipped[j] != skipped[k]
    ensures updated == |settled| && updated + |skipped| == |selected|
    ensures orders == WithStatus(o0, settled, t)
    ensures forall x :: x in skipped ==>
              x in o0 && o0[x].product in products
              && BulkEffect(o0[x].status, t) == Take && products[o0[x].product].currentStock < o0[x].quantity
    ensures products == AfterTakes(p0, o0, Taken(o0, settled, t))
    ensures forall p :: p in products && p0[p].currentStock >= 0 ==> products[p].currentStock >= 0
    ensures batches == Recomputed(b0, orders, BatchesOf(o0, settled))
  {
  }

  /** Once every selected order is visited, every batch total that matched
      its orders before still does. */
  lemma BulkStateKeepsTotals(o0: map<OrderId, Order>, p0: map<ProductId, Product>, b0: map<BatchId, Batch>, t: Status,
                             selected: set<OrderId>, done: set<OrderId>, settled: set<OrderId>, taken: set<OrderId>,
                             skipped: seq<OrderId>, updated: nat,
                             orders: map<OrderId, Order>, products: map<ProductId, Product>, batches: map<BatchId, Batch>)
    requires BulkState(o0, p0, b0, t, selected, done, settled, taken, skipped, updated, orders, products, batches)
    requires forall b :: b in b0 ==> b0[b].totalProfit == BatchProfit(o0, b)
    ensures forall b :: b in batches ==> batches[b].totalProfit == BatchProfit(orders, b)
  {
  }

  // ---------------------------------------------------------------------
  // The database

  class Store {
    var products: map<ProductId, Product>
    var customers: set<CustomerId>
    var batches: map<BatchId, Batch>
    var orders: map<OrderId, Order>
    var records: map<RecordId, StockRecord>
    var accounts: map<UserId, Account>
    var nextOrderId: OrderId
    var nextRecordId: RecordId

    /** An order row whose foreign keys resolve, whose quantity meets its
        field bound, whose status is well formed and whose derived amounts
        agree with its fields. */
    ghost predicate Linked(o: Order)
      reads this
    {
      && o.batch in batches && o.customer in customers && o.product in products
      && o.quantity >= 1 && WellFormed(o.status) && DerivedConsistent(o)
    }

    /** The integrity the database keeps: every order and record points at
        rows that exist, and ids are handed out above every id in use. */
    ghost predicate Valid()
      reads this
    {
      && (forall id :: id in orders ==> id < nextOrderId && Linked(orders[id]))
      && (forall id :: id in records ==> id < nextRecordId && records[id].product in products)
    }

    /** Every batch's stored total is the profit of its counted orders. */
    ghost predicate Consistent()
      reads this`orders, this`batches
    {
      forall b :: b in batches ==> batches[b].totalProfit == BatchProfit(orders, b)
    }

    /** An empty database. */
    constructor()
      ensures Valid() && Consistent()
      ensures products == map[] && customers == {} && batches == map[] && orders == map[]
      ensures records == map[] && accounts == map[]
    {
      products := map[];
      customers := {};
      batches := map[];
      orders := map[];
      records := map[];
      accounts := map[];
      nextOrderId := 0;
      nextRecordId := 0;
    }

    // -------------------------------------------------------------------
    // The model layer

    /** Recomputes and stores the total profit of batch `b`, and returns it. */
    method CalculateTotalProfit(b: BatchId) returns (total: int)
      requires b in batches
      modifies this`batches
      ensures total == BatchProfit(orders, b)
      ensures batches == old(batches)[b := old(batches)[b].(totalProfit := total)]
      ensures old(Valid()) ==> Valid()
    {
      total := CountedProfit(orders, b);
      batches := batches[b := batches[b].(totalProfit := total)];
    }

    /** The first save of a new order: the derived amounts are computed with
        the product's cost price as it is now; an order created in a counted
        status takes its quantity out of stock unconditionally; the batch
        total is recomputed. */
    method CreateOrder(o: Order) returns (id: OrderId)
      requires Valid()
      requires o.batch in batches && o.customer in customers && o.product in products
      requires o.quantity >= 1 && WellFormed(o.status)
      modifies this`orders, this`products, this`batches, this`nextOrderId
      ensures Valid()
      ensures id == old(nextOrderId) && id !in old(orders) && nextOrderId == id + 1
      ensures orders == old(orders)[id := WithDerivedAmounts(o, old(products)[o.product].costPrice)]
      ensures products == old(products)[o.product := AfterCreation(old(products)[o.product], o)]
      ensures batches == old(batches)[o.batch := old(batches)[o.batch].(totalProfit := BatchProfit(orders, o.batch))]
      ensures old(Consistent()) ==> Consistent()
    {
      ghost var before := orders;
      var saved := WithDerivedAmounts(o, products[o.product].costPrice);
      products := products[o.product := AfterCreation(products[o.product], o)];
      id := nextOrderId;
      orders := orders[id := saved];
      nextOrderId := nextOrderId + 1;
      var total := CalculateTotalProfit(o.batch);
      forall c | c in batches && c != o.batch
        ensures BatchProfit(orders, c) == BatchProfit(before, c)
      {
        OtherBatchUnaffected(before, c, id, saved);
      }
    }

    /** A full save of an existing order with new field values: the derived
        amounts are recomputed with the product's current cost price, the
        stock is not touched, and the batch total is recomputed. */
    method ResaveOrder(id: OrderId, o: Order)
      requires Valid() && id in orders
      requires o.batch == orders[id].batch && o.customer == orders[id].customer && o.product == orders[id].product
      requires o.quantity >= 1 && WellFormed(o.status)
      modifies this`orders, this`batches
      ensures Valid()
      ensures orders == old(orders)[id := WithDerivedAmounts(o, products[o.product].costPrice)]
      ensures batches == old(batches)[o.batch := old(batches)[o.batch].(totalProfit := BatchProfit(orders, o.batch))]
      ensures old(Consistent()) ==> Consistent()
    {
      ghost var before := orders;
      var saved := WithDerivedAmounts(o, products[o.product].costPrice);
      orders := orders[id := saved];
      var total := CalculateTotalProfit(o.batch);
      forall c | c in batches && c != o.batch
        ensures BatchProfit(orders, c) == BatchProfit(before, c)
      {
        OtherBatchUnaffected(before, c, id, saved);
      }
    }

    /** A save that writes only the status of an existing order: the
        derived amounts and the stock stay as stored, and the order's save
        still recomputes the batch total. */
    method SaveStatus(id: OrderId, s: Status)
      requires Valid() && id in orders && WellFormed(s)
      modifies this`orders, this`batches
      ensures Valid()
      ensures orders == old(orders)[id := old(orders)[id].(status := s)]
      ensures batches == old(batches)[orders[id].batch := old(batches)[orders[id].batch].(totalProfit := BatchProfit(orders, orders[id].batch))]
      ensures forall c :: c != orders[id].batch ==> BatchProfit(orders, c) == BatchProfit(old(orders), c)
      ensures old(Consistent()) ==> Consistent()
    {
      ghost var before := orders;
      var saved := orders[id].(status := s);
      orders := orders[id := saved];
      var total := CalculateTotalProfit(saved.batch);
      forall c | c != saved.batch
        ensures BatchProfit(orders, c) == BatchProfit(before, c)
      {
        OtherBatchUnaffected(before, c, id, saved);
      }
    }

    /** Writes a product's stock and sold quantity after a status change's
        stock effect; no other column of the product changes. */
    method MoveStock(pid: ProductId, effect: StockEffect, quantity: int)
      requires Valid() && pid in products
      modifies this`products
      ensures Valid()
      ensures products == old(products)[pid := ApplyEffect(old(products)[pid], effect, quantity)]
    {
      products := products[pid := ApplyEffect(products[pid], effect, quantity)];
    }

    // -------------------------------------------------------------------
    // Order endpoints

    /** The order create endpoint: the request is checked and, if it passes,
        saved as a new order.  A checked order never drives a stock that was
        not negative below zero. */
    method PlaceOrder(req: OrderRequest, user: UserId) returns (r: Result<OrderId>)
      requires Valid()
      modifies this`orders, this`products, this`batches, this`nextOrderId
      ensures Valid()
      ensures r.Ok? <==> OrderRequestCheck(req, old(batches).Keys, customers, old(products)).Pass?
      ensures r.Err? ==> r.error == OrderRequestCheck(req, old(batches).Keys, customers, old(products)).error
      ensures r.Err? ==> orders == old(orders) && products == old(products) && batches == old(batches)
                         && nextOrderId == old(nextOrderId)
      ensures r.Ok? ==>
        && r.value == old(nextOrderId) && r.value !in old(orders) && nextOrderId == r.value + 1
        && orders == old(orders)[r.value := WithDerivedAmounts(RequestOrder(req, user), old(products)[req.product].costPrice)]
        && products == old(products)[req.product := AfterCreation(old(products)[req.product], RequestOrder(req, user))]
        && batches == old(batches)[req.batch := old(batches)[req.batch].(totalProfit := BatchProfit(orders, req.batch))]
      ensures forall p :: p in products && old(products)[p].currentStock >= 0 ==> products[p].currentStock >= 0
      ensures old(Consistent()) ==> Consistent()
    {
      var check := OrderRequestCheck(req, batches.Keys, customers, products);
      if check.Fail? {
        return Err(check.error);
      }
      var o := RequestOrder(req, user);
      if products[req.product].currentStock >= 0 {
        CheckedCreationKeepsStock(products[req.product], o);
      }
      var id := CreateOrder(o);
      r := Ok(id);
    }

    /** The order update endpoint: the fields the request carries are
        checked, written, and the order is saved in full.  The stock is never
        touched, even when the edit moves the order from pending to a counted
        status or raises its quantity. */
    method UpdateOrder(id: OrderId, edit: OrderEdit, partial: bool) returns (r: Check)
      requires Valid()
      modifies this`orders, this`batches
      ensures Valid()
      ensures id !in old(orders) ==> r == Fail(NotFound)
      ensures id in old(orders) ==> r == EditCheck(old(orders)[id], products[old(orders)[id].product].currentStock, edit, partial)
      ensures r.Fail? ==> orders == old(orders) && batches == old(batches)
      ensures r.Pass? ==>
        var o := old(orders)[id];
        && orders == old(orders)[id := WithDerivedAmounts(Edited(o, edit), products[o.product].costPrice)]
        && batches == old(batches)[o.batch := old(batches)[o.batch].(totalProfit := BatchProfit(orders, o.batch))]
      ensures old(Consistent()) ==> Consistent()
    {
      if id !in orders {
        return Fail(NotFound);
      }
      var o := orders[id];
      r := EditCheck(o, products[o.product].currentStock, edit, partial);
      if r.Fail? {
        return;
      }
      ResaveOrder(id, Edited(o, edit));
    }

    /** The single-order status endpoint.  A missing, empty or unknown status
        is refused; pending to a counted status takes the order's quantity if
        the stock covers it and is refused otherwise; a counted status to
        cancelled or refunded gives the quantity back; every other change
        only sets the status.  The batch total is recomputed. */
    method UpdateStatus(id: OrderId, requested: Option<string>) returns (r: Check)
      requires Valid()
      modifies this`orders, this`products, this`batches
      ensures Valid()
      ensures id !in old(orders) ==> r == Fail(NotFound)
      ensures id in old(orders) && RequestedStatus(requested).Err? ==> r == Fail(RequestedStatus(requested).error)
      ensures id in old(orders) && RequestedStatus(requested).Ok? ==>
        var o := old(orders)[id];
        var p := old(products)[o.product];
        var effect := SingleEffect(o.status, RequestedStatus(requested).value);
        r == (if effect == Take && p.currentStock < o.quantity then Fail(InsufficientStock(p.currentStock)) else Pass)
      ensures r.Fail? ==> orders == old(orders) && products == old(products) && batches == old(batches)
      ensures r.Pass? ==>
        var o := old(orders)[id];
        var t := RequestedStatus(requested).value;
        && orders == old(orders)[id := o.(status := t)]
        && products == old(products)[o.product := ApplyEffect(old(products)[o.product], SingleEffect(o.status, t), o.quantity)]
        && batches == old(batches)[o.batch := old(batches)[o.batch].(totalProfit := BatchProfit(orders, o.batch))]
      ensures forall p :: p in products && old(products)[p].currentStock >= 0 ==> products[p].currentStock >= 0
      ensures old(Consistent()) ==> Consistent()
    {
      if id !in orders {
        return Fail(NotFound);
      }
      var requestedStatus := RequestedStatus(requested);
      if requestedStatus.Err? {
        return Fail(requestedStatus.error);
      }
      var t := requestedStatus.value;
      var o := orders[id];
      var effect := SingleEffect(o.status, t);
      if effect == Take && products[o.product].currentStock < o.quantity {
        return Fail(InsufficientStock(products[o.product].currentStock));
      }
      if products[o.product].currentStock >= 0 {
        CheckedTakeKeepsStock(products[o.product], o.status, t, o.quantity);
      }
      MoveStock(o.product, effect, o.quantity);
      SaveStatus(id, t);
      var total := CalculateTotalProfit(o.batch);
      r := Pass;
    }

    /** One order visited by the bulk status endpoint: skipped when it must
        take stock the product does not have, otherwise its stock effect is
        applied and its status saved. */
    method BulkVisit(x: OrderId, t: Status) returns (skip: bool)
      requires Valid() && x in orders && WellFormed(t)
      modifies this`orders, this`products, this`batches
      ensures Valid()
      ensures skip <==> BulkEffect(old(orders)[x].status, t) == Take
                        && old(products)[old(orders)[x].product].currentStock < old(orders)[x].quantity
      ensures skip ==> orders == old(orders) && products == old(products) && batches == old(batches)
      ensures !skip ==>
        var o := old(orders)[x];
        && orders == old(orders)[x := o.(status := t)]
        && products == old(products)[o.product := ApplyEffect(old(products)[o.product], BulkEffect(o.status, t), o.quantity)]
        && batches == old(batches)[o.batch := old(batches)[o.batch].(totalProfit := BatchProfit(orders, o.batch))]
      ensures forall c :: c != old(orders)[x].batch ==> BatchProfit(orders, c) == BatchProfit(old(orders), c)
      ensures old(Consistent()) ==> Consistent()
    {
      var o := orders[x];
      var effect := BulkEffect(o.status, t);
      if effect == Take && products[o.product].currentStock < o.quantity {
        return true;
      }
      MoveStock(o.product, effect, o.quantity);
      SaveStatus(x, t);
      skip := false;
    }

    /** One turn of the bulk status endpoint's loop: the order `x`, not yet
        visited, is skipped or updated, and the bulk state follows. */
    method BulkStep(x: OrderId, t: Status, ghost o0: map<OrderId, Order>, ghost p0: map<ProductId, Product>,
                    ghost b0: map<BatchId, Batch>, ghost selected: set<OrderId>, ghost done: set<OrderId>,
                    ghost settled: set<OrderId>, ghost taken: set<OrderId>, ghost skipped: seq<OrderId>,
                    ghost updated: nat)
      returns (skip: bool, ghost settled': set<OrderId>, ghost taken': set<OrderId>)
      requires Valid() && WellFormed(t)
      requires BulkState(o0, p0, b0, t, selected, done, settled, taken, skipped, updated, orders, products, batches)
      requires x in selected && x !in done
      modifies this`orders, this`products, this`batches
      ensures Valid()
      ensures BulkState(o0, p0, b0, t, selected, done + {x}, settled', taken',
                        if skip then skipped + [x] else skipped, if skip then updated else updated + 1,
                        orders, products, batches)
    {
      ghost var o := o0[x];
      assert orders[x] == o && Linked(o);
      ghost var before := orders;
      ghost var beforeProducts := products;
      ghost var beforeBatches := batches;
      skip := BulkVisit(x, t);
      if skip {
        BulkSkipStep(o0, p0, b0, t, selected, done, settled, taken, skipped, updated,
                     before, beforeProducts, beforeBatches, x);
        settled', taken' := settled, taken;
      } else {
        BulkUpdateStep(o0, p0, b0, t, selected, done, settled, taken, skipped, updated,
                       before, beforeProducts, beforeBatches, x, orders, products, batches);
        settled' := settled + {x};
        taken' := if BulkEffect(o.status, t) == Take then taken + {x} else taken;
      }
    }

    /** The loop of the bulk status endpoint: every selected order visited
        once, in any order. */
    method BulkLoop(selected: set<OrderId>, t: Status)
      returns (updated: nat, skipped: seq<OrderId>, ghost settled: set<OrderId>, ghost taken: set<OrderId>)
      requires Valid() && selected <= orders.Keys && WellFormed(t)
      modifies this`orders, this`products, this`batches
      ensures Valid()
      ensures BulkState(old(orders), old(products), old(batches), t, selected, selected, settled, taken, skipped, updated,
                        orders, products, batches)
    {
      var rest := selected;
      updated := 0;
      skipped := [];
      ghost var done: set<OrderId> := {};
      settled := {};
      taken := {};
      BulkStart(orders, products, batches, t, selected);
      while rest != {}
        invariant rest <= selected <= old(orders).Keys && done !! rest && done + rest == selected
        invariant rest == {} ==> done == selected
        invariant Valid()
        invariant BulkState(old(orders), old(products), old(batches), t, selected, done, settled, taken, skipped, updated,
                            orders, products, batches)
        decreases |rest|
      {
        var x :| x in rest;
        var skip;
        skip, settled, taken := BulkStep(x, t, old(orders), old(products), old(batches), selected, done, settled, taken,
                                         skipped, updated);
        if skip {
          skipped := skipped + [x];
        } else {
          updated := updated + 1;
        }
        VisitOne(selected, done, rest, x);
        rest := rest - {x};
        done := done + {x};
      }
    }

    /** The bulk status endpoint, reading each product's stock as it stands
        when the order is reached.  An empty id list or a missing or empty
        status is refused, then an unknown status.  The selected orders are
        the listed ids that exist, visited in any order; a pending order
        moving to a counted status takes its quantity if the stock covers it
        and is skipped otherwise; nothing is ever given back.  Each updated
        order's batch total is recomputed. */
    method BatchUpdateStatus(orderIds: seq<OrderId>, requested: Option<string>) returns (r: Result<BulkOutcome>)
      requires Valid()
      modifies this`orders, this`products, this`batches
      ensures Valid()
      ensures r.Err? <==> orderIds == [] || requested.None? || requested.value !in Choices
      ensures r.Err? ==> r.error == (if orderIds == [] || requested.None? || requested.value == ""
                                     then MissingOrderIdsOrStatus else InvalidStatus)
      ensures r.Err? ==> orders == old(orders) && products == old(products) && batches == old(batches)
      ensures r.Ok? ==>
        var t := Parse(requested.value);
        var selected := Selected(old(orders), orderIds);
        var skipped := r.value.skipped;
        var settled := Settled(selected, skipped);
        && (forall k :: 0 <= k < |skipped| ==> skipped[k] in selected)
        && (forall j, k :: 0 <= j < k < |skipped| ==> skipped[j] != skipped[k])
        && r.value.updated == |settled|
        && r.value.updated + |skipped| == |selected|
        && orders == WithStatus(old(orders), settled, t)
        && (forall x :: x in skipped ==>
              BulkEffect(old(orders)[x].status, t) == Take
              && products[old(orders)[x].product].currentStock < old(orders)[x].quantity)
        && products == AfterTakes(old(products), old(orders), Taken(old(orders), settled, t))
        && (forall p :: p in products && old(products)[p].currentStock >= 0 ==> products[p].currentStock >= 0)
        && batches == Recomputed(old(batches), orders, BatchesOf(old(orders), settled))
      ensures old(Consistent()) ==> Consistent()
    {
      if orderIds == [] || requested.None? || requested.value == "" {
        return Err(MissingOrderIdsOrStatus);
      }
      var t := Parse(requested.value);
      if t.Other? {
        return Err(InvalidStatus);
      }
      var selected := Selected(orders, orderIds);
      ghost var settled, taken;
      var updated, skipped;
      updated, skipped, settled, taken := BulkLoop(selected, t);
      BulkFinal(old(orders), old(products), old(batches), t, selected, settled, taken, skipped, updated,
                orders, products, batches);
      if old(Consistent()) {
        BulkStateKeepsTotals(old(orders), old(products), old(batches), t, selected, selected, settled, taken, skipped,
                             updated, orders, products, batches);
      }
      r := Ok(BulkOutcome(updated, skipped));
    }

    /** The batch endpoint that adds orders: the batch must exist and the
        entry list pass the bulk order check; then one order is created per
        entry, in order, through the first save of an order, which takes the
        quantity of every entry with a counted status out of stock without
        any stock check. */
    method AddOrders(b: BatchId, entries: seq<OrderEntry>, user: UserId) returns (r: Result<seq<OrderId>>)
      requires Valid()
      modifies this`orders, this`products, this`batches, this`nextOrderId
      ensures Valid()
      ensures b !in old(batches) ==> r == Err(NotFound)
      ensures b in old(batches) ==> (r.Err? <==> EntriesOutcome(entries, customers, old(products).Keys).Err?)
      ensures b in old(batches) && r.Err? ==> r.error == EntriesOutcome(entries, customers, old(products).Keys).error
      ensures r.Err? ==> orders == old(orders) && products == old(products) && batches == old(batches)
                         && nextOrderId == old(nextOrderId)
      ensures r.Ok? ==> Creatable(entries, old(products)) && |entries| >= 1
      ensures r.Ok? ==>
        && r.value == IdRun(old(nextOrderId), |entries|)
        && nextOrderId == old(nextOrderId) + |entries|
        && orders == Inserted(old(orders), CreatedRows(b, entries, user, old(products)), |entries|, old(nextOrderId))
        && products == AfterEntries(old(products), entries, |entries|)
        && batches == old(batches)[b := old(batches)[b].(totalProfit := BatchProfit(orders, b))]
      ensures old(Consistent()) ==> Consistent()
    {
      if b !in batches {
        return Err(NotFound);
      }
      var checked := ValidateOrders(entries, customers, products.Keys);
      if checked.Err? {
        return Err(checked.error);
      }
      var ids := AddLoop(b, entries, user);
      AddFinal(b, entries, user, old(orders), old(products), old(batches), old(nextOrderId),
               orders, products, batches, nextOrderId);
      r := Ok(ids);
    }

    /** The bulk order endpoint's loop over checked entries: one order per
        entry, in order, with the ids it got. */
    method AddLoop(b: BatchId, entries: seq<OrderEntry>, user: UserId) returns (ids: seq<OrderId>)
      requires Valid() && b in batches && Creatable(entries, products)
      requires forall k :: 0 <= k < |entries| ==> EntryValid(entries[k], customers, products.Keys)
      modifies this`orders, this`products, this`batches, this`nextOrderId
      ensures Valid() && ids == IdRun(old(nextOrderId), |entries|)
      ensures AddState(b, entries, user, old(orders), old(products), old(batches), old(nextOrderId),
                       |entries|, orders, products, batches, nextOrderId)
      ensures old(Consistent()) ==> Consistent()
    {
      ghost var o0, p0, b0, n0 := orders, products, batches, nextOrderId;
      ghost var consistent := Consistent();
      ids := [];
      var i := 0;
      AddStart(b, entries, user, o0, p0, b0, n0);
      while i < |entries|
        invariant i <= |entries|
        invariant Adding(b, entries, user, o0, p0, b0, n0, consistent, i, ids)
      {
        ids := CreateEntry(b, entries, i, user, ids, o0, p0, b0, n0, consistent);
        i := i + 1;
      }
    }

    /** The state of the bulk order endpoint's loop after `i` entries, with
        the ids `ids` it got. */
    ghost predicate Adding(b: BatchId, entries: seq<OrderEntry>, user: UserId, o0: map<OrderId, Order>,
                           p0: map<ProductId, Product>, b0: map<BatchId, Batch>, n0: OrderId, consistent: bool,
                           i: nat, ids: seq<OrderId>)
      reads this
    {
      && Valid()
      && (forall k :: 0 <= k < |entries| ==> EntryValid(entries[k], customers, p0.Keys))
      && ids == IdRun(n0, i)
      && AddState(b, entries, user, o0, p0, b0, n0, i, orders, products, batches, nextOrderId)
      && (consistent ==> Consistent())
    }

    /** The bulk order endpoint's creation of the order for entry `i`,
        whose id is appended to the ids `ids` of the orders created before. */
    method CreateEntry(b: BatchId, entries: seq<OrderEntry>, i: nat, user: UserId, ids: seq<OrderId>,
                       ghost o0: map<OrderId, Order>, ghost p0: map<ProductId, Product>, ghost b0: map<BatchId, Batch>,
                       ghost n0: OrderId, ghost consistent: bool)
      returns (ids': seq<OrderId>)
      requires i < |entries| && Adding(b, entries, user, o0, p0, b0, n0, consistent, i, ids)
      modifies this`orders, this`products, this`batches, this`nextOrderId
      ensures Adding(b, entries, user, o0, p0, b0, n0, consistent, i + 1, ids')
    {
      ghost var before, beforeProducts, beforeBatches, next := orders, products, batches, nextOrderId;
      var o := EntryOrder(b, entries[i], user);
      assert EntryValid(entries[i], customers, p0.Keys);
      assert batches.Keys == b0.Keys;
      var id := CreateOrder(o);
      IdRunOneMore(n0, i, ids, id);
      ids' := ids + [id];
      AddStep(b, entries, user, o0, p0, b0, n0, i, before, beforeProducts, beforeBatches, next,
              orders, products, batches);
    }

    // -------------------------------------------------------------------
    // Stock records

    /** The first save of a stock record: the product's stock before the
        movement is recorded, the movement applied (an `out` may drive the
        stock negative), and the stock after it recorded and written back to
        the product.  An `adjust` without a target writes a missing value
        into the stock column, which the database refuses. */
    method RecordMovement(pid: ProductId, op: OpType, quantity: int, target: Option<int>, user: UserId)
      returns (r: Result<RecordId>)
      requires Valid() && pid in products
      modifies this`products, this`records, this`nextRecordId
      ensures Valid()
      ensures r.Err? <==> op == Adjust && target.None?
      ensures r.Err? ==> r.error == MissingAfterStock
                         && products == old(products) && records == old(records) && nextRecordId == old(nextRecordId)
      ensures r.Ok? ==>
        var before := old(products)[pid].currentStock;
        var after := StockAfter(before, op, quantity, target).value;
        && r.value == old(nextRecordId) && r.value !in old(records) && nextRecordId == r.value + 1
        && records == old(records)[r.value := StockRecord(pid, op, quantity, before, after, user)]
        && products == old(products)[pid := old(products)[pid].(currentStock := after)]
    {
      var before := products[pid].currentStock;
      var after := StockAfter(before, op, quantity, target);
      if after.None? {
        return Err(MissingAfterStock);
      }
      products := products[pid := products[pid].(currentStock := after.value)];
      var id := nextRecordId;
      records := records[id := StockRecord(pid, op, quantity, before, after.value, user)];
      nextRecordId := nextRecordId + 1;
      r := Ok(id);
    }

    /** A later save of a stored stock record, as the console's change form
        makes it: the product, type and quantity are written, the stock
        snapshots are kept and no product is touched. */
    method ResaveStockRecord(id: RecordId, pid: ProductId, op: OpType, quantity: int)
      requires Valid() && id in records && pid in products
      modifies this`records
      ensures Valid()
      ensures records == old(records)[id := old(records)[id].(product := pid, opType := op, quantity := quantity)]
      ensures records[id].beforeStock == old(records)[id].beforeStock
      ensures records[id].afterStock == old(records)[id].afterStock
    {
      records := records[id := records[id].(product := pid, opType := op, quantity := quantity)];
    }

    /** The stock record create endpoint.  The product must exist; the
        target stock is a required field of the form for every type of
        movement; then the record check runs; then the record is saved.  A
        checked movement never drives a stock that was not negative below
        zero. */
    method CreateStockRecord(pid: ProductId, op: OpType, quantity: int, afterStock: Option<int>, user: UserId)
      returns (r: Result<RecordId>)
      requires Valid()
      modifies this`products, this`records, this`nextRecordId
      ensures Valid()
      ensures pid !in old(products) ==> r == Err(NotFound)
      ensures pid in old(products) && afterStock.None? ==> r == Err(MissingField("after_stock"))
      ensures pid in old(products) && afterStock.Some? ==>
        (r.Ok? <==> StockRecordCheck(op, quantity, afterStock, old(products)[pid]).Pass?)
      ensures pid in old(products) && afterStock.Some? && r.Err? ==>
        r.error == StockRecordCheck(op, quantity, afterStock, old(products)[pid]).error
      ensures r.Err? ==> products == old(products) && records == old(records) && nextRecordId == old(nextRecordId)
      ensures r.Ok? ==>
        var before := old(products)[pid].currentStock;
        var after := StockAfter(before, op, quantity, afterStock).value;
        && r.value == old(nextRecordId) && r.value !in old(records) && nextRecordId == r.value + 1
        && records == old(records)[r.value := StockRecord(pid, op, quantity, before, after, user)]
        && products == old(products)[pid := old(products)[pid].(currentStock := after)]
      ensures forall p :: p in products && old(products)[p].currentStock >= 0 ==> products[p].currentStock >= 0
    {
      if pid !in products {
        return Err(NotFound);
      }
      if afterStock.None? {
        return Err(MissingField("after_stock"));
      }
      var check := StockRecordCheck(op, quantity, afterStock, products[pid]);
      if check.Fail? {
        return Err(check.error);
      }
      if products[pid].currentStock >= 0 {
        CheckedMovementKeepsStock(op, quantity, afterStock, products[pid]);
      }
      r := RecordMovement(pid, op, quantity, afterStock, user);
    }

    /** The product stock-in endpoint.  The product in the address must
        exist; the form needs a product id naming an existing product and a
        quantity of at least one; the `in` record is then made for the
        product in the address, whatever product the form named.  The stock
        it reports is the one read before the movement. */
    method StockIn(urlProduct: ProductId, formProduct: Option<ProductId>, quantity: int, user: UserId)
      returns (r: Result<StockInReceipt>)
      requires Valid()
      modifies this`products, this`records, this`nextRecordId
      ensures Valid()
      ensures urlProduct !in old(products) ==> r == Err(NotFound)
      ensures urlProduct in old(products) ==>
        (r.Ok? <==> formProduct.Some? && formProduct.value in old(products) && quantity >= 1)
      ensures urlProduct in old(products) && formProduct.None? ==> r == Err(MissingField("product_id"))
      ensures urlProduct in old(products) && formProduct.Some? && formProduct.value !in old(products)
              ==> r == Err(UnknownProduct)
      ensures r.Err? ==> products == old(products) && records == old(records) && nextRecordId == old(nextRecordId)
      ensures r.Ok? ==>
        var before := old(products)[urlProduct].currentStock;
        && r.value.reportedStock == before
        && r.value.record == old(nextRecordId) && r.value.record !in old(records) && nextRecordId == r.value.record + 1
        && records == old(records)[r.value.record := StockRecord(urlProduct, In, quantity, before, before + quantity, user)]
        && products == old(products)[urlProduct := old(products)[urlProduct].(currentStock := before + quantity)]
    {
      if urlProduct !in products {
        return Err(NotFound);
      }
      if formProduct.None? {
        return Err(MissingField("product_id"));
      }
      if formProduct.value !in products {
        return Err(UnknownProduct);
      }
      var check := StockInCheck(quantity);
      if check.Fail? {
        return Err(check.error);
      }
      var reported := products[urlProduct].currentStock;
      var saved := RecordMovement(urlProduct, In, quantity, None, user);
      r := Ok(StockInReceipt(saved.value, reported));
    }

    // -------------------------------------------------------------------
    // Users

    /** The password reset endpoint: a missing, empty or short password is
        refused; otherwise it replaces the account's password. */
    method SetPassword(id: UserId, password: Option<string>) returns (r: Check)
      modifies this`accounts
      ensures id !in old(accounts) ==> r == Fail(NotFound)
      ensures id in old(accounts) ==>
        (r.Pass? <==> password.Some? && |password.value| >= MinPasswordLength)
      ensures id in old(accounts) && r.Fail? ==> r.error == PasswordTooShort
      ensures r.Fail? ==> accounts == old(accounts)
      ensures r.Pass? ==> accounts == old(accounts)[id := old(accounts)[id].(password := password.value)]
    {
      if id !in accounts {
        return Fail(NotFound);
      }
      if password.None? || password.value == "" || |password.value| < MinPasswordLength {
        return Fail(PasswordTooShort);
      }
      accounts := accounts[id := accounts[id].(password := password.value)];
      r := Pass;
    }

    /** The activation toggle endpoint: flips the account's active flag and
        answers with the new value. */
    method ToggleActive(id: UserId) returns (r: Result<bool>)
      modifies this`accounts
      ensures id !in old(accounts) ==> r == Err(NotFound) && accounts == old(accounts)
      ensures id in old(accounts) ==>
        && r == Ok(!old(accounts)[id].isActive)
        && accounts == old(accounts)[id := old(accounts)[id].(isActive := !old(accounts)[id].isActive)]
    {
      if id !in accounts {
        return Err(NotFound);
      }
      var account := accounts[id].(isActive := !accounts[id].isActive);
      accounts := accounts[id := account];
      r := Ok(account.isActive);
    }

    // -------------------------------------------------------------------
    // Console bulk actions

    /** One console bulk action: a table update of the status of the
        selected orders whose status is in `from`, bypassing the order save,
        so neither stock nor batch totals move.  Answers the number of
        orders updated. */
    method SetStatusWhere(selected: set<OrderId>, from: set<Status>, to: Status) returns (count: nat)
      requires Valid() && WellFormed(to)
      modifies this`orders
      ensures Valid()
      ensures orders == AdminSite.BulkSetStatus(old(orders), selected, from, to)
      ensures count == |AdminSite.Matching(old(orders), selected, from)|
    {
      var matching := AdminSite.Matching(orders, selected, from);
      orders := AdminSite.BulkSetStatus(orders, selected, from, to);
      count := |matching|;
    }

    /** Confirms the selected pending orders. */
    method ConfirmOrders(selected: set<OrderId>) returns (count: nat)
      requires Valid()
      modifies this`orders
      ensures Valid()
      ensures orders == AdminSite.BulkSetStatus(old(orders), selected, AdminSite.ConfirmFrom, Confirmed)
      ensures count == |AdminSite.Matching(old(orders), selected, AdminSite.ConfirmFrom)|
    {
      count := SetStatusWhere(selected, AdminSite.ConfirmFrom, Confirmed);
    }

    /** Cancels the selected pending or confirmed orders. */
    method CancelOrders(selected: set<OrderId>) returns (count: nat)
      requires Valid()
      modifies this`orders
      ensures Valid()
      ensures orders == AdminSite.BulkSetStatus(old(orders), selected, AdminSite.CancelFrom, Cancelled)
      ensures count == |AdminSite.Matching(old(orders), selected, AdminSite.CancelFrom)|
    {
      count := SetStatusWhere(selected, AdminSite.CancelFrom, Cancelled);
    }

    /** Completes the selected orders that are shipping. */
    method MarkAsCompleted(selected: set<OrderId>) returns (count: nat)
      requires Valid()
      modifies this`orders
      ensures Valid()
      ensures orders == AdminSite.BulkSetStatus(old(orders), selected, AdminSite.CompleteFrom, Completed)
      ensures count == |AdminSite.Matching(old(orders), selected, AdminSite.CompleteFrom)|
    {
      count := SetStatusWhere(selected, AdminSite.CompleteFrom, Completed);
    }
  }
}
