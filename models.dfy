/** The rows of the sales database and the rules the model layer applies to
    them: derived order amounts, stock reservation and release, stock
    movements, and the batch profit aggregate.  Money is held in cents, so
    the two-place decimals of the database are exact integers here. */
module Models {
  import opened Common
  import opened OrderStatus

  datatype Product = Product(
    name: string,
    specification: string,
    costPrice: int,        // cents
    currentStock: int,
    soldQuantity: int)

  datatype Batch = Batch(
    batchNumber: string,
    totalProfit: int,      // cents; cached aggregate
    createdBy: UserId)

  datatype Order = Order(
    batch: BatchId,
    customer: CustomerId,
    product: ProductId,
    quantity: int,
    unitPrice: int,        // cents
    otherCosts: int,       // cents
    salesAmount: int,      // cents; derived
    totalCost: int,        // cents; derived
    grossProfit: int,      // cents; derived
    status: Status,
    createdBy: UserId)

  datatype OpType = In | Out | Adjust

  datatype StockRecord = StockRecord(
    product: ProductId,
    opType: OpType,
    quantity: int,
    beforeStock: int,
    afterStock: int,
    operatedBy: UserId)

  // ---------------------------------------------------------------------
  // Derived order amounts

  /** The three derived amounts agree with the order's own fields. */
  predicate DerivedConsistent(o: Order) {
    o.salesAmount == o.quantity * o.unitPrice &&
    o.grossProfit == o.salesAmount - o.totalCost
  }

  /** What a full save of an order stores: the three derived amounts are
      recomputed from the quantity, the prices and the product's cost price
      as it is at the moment of the save; nothing else changes. */
  function WithDerivedAmounts(o: Order, costPrice: int): (r: Order)
    ensures r == o.(salesAmount := r.salesAmount, totalCost := r.totalCost, grossProfit := r.grossProfit)
    ensures DerivedConsistent(r)
    ensures r.totalCost == costPrice * o.quantity + o.otherCosts
    ensures r.grossProfit == o.quantity * (o.unitPrice - costPrice) - o.otherCosts
  {
    var sales := o.quantity * o.unitPrice;
    var cost := costPrice * o.quantity + o.otherCosts;
    assert sales - cost == o.quantity * (o.unitPrice - costPrice) - o.otherCosts;
    o.(salesAmount := sales, totalCost := cost, grossProfit := sales - cost)
  }

  /** Recomputing the amounts of an order twice with the same cost price
      stores the same row: a re-save without edits changes nothing. */
  lemma ResaveIsIdempotent(o: Order, costPrice: int)
    ensures WithDerivedAmounts(WithDerivedAmounts(o, costPrice), costPrice) == WithDerivedAmounts(o, costPrice)
  {
  }

  // ---------------------------------------------------------------------
  // Reservation and release of stock

  /** `quantity` units leave the stock and are counted as sold. */
  function Reserve(p: Product, quantity: int): (r: Product)
    ensures r.currentStock + r.soldQuantity == p.currentStock + p.soldQuantity
    ensures r.soldQuantity - p.soldQuantity == quantity
    ensures r == p.(currentStock := r.currentStock, soldQuantity := r.soldQuantity)
  {
    p.(currentStock := p.currentStock - quantity, soldQuantity := p.soldQuantity + quantity)
  }

  /** `quantity` units come back into the stock and stop counting as sold. */
  function Release(p: Product, quantity: int): (r: Product)
    ensures r.currentStock + r.soldQuantity == p.currentStock + p.soldQuantity
    ensures p.soldQuantity - r.soldQuantity == quantity
    ensures r == p.(currentStock := r.currentStock, soldQuantity := r.soldQuantity)
  {
    p.(currentStock := p.currentStock + quantity, soldQuantity := p.soldQuantity - quantity)
  }

  lemma ReleaseUndoesReserve(p: Product, quantity: int)
    ensures Release(Reserve(p, quantity), quantity) == p
    ensures Reserve(Release(p, quantity), quantity) == p
  {
  }

  /** The product row after a new order is saved: an order created in a
      counted status takes its quantity out of stock, without looking at
      how much stock there is; any other new order leaves the product. */
  function AfterCreation(p: Product, o: Order): (r: Product)
    ensures r.currentStock + r.soldQuantity == p.currentStock + p.soldQuantity
    ensures IsCounted(o.status) ==> r.currentStock == p.currentStock - o.quantity
    ensures !IsCounted(o.status) ==> r == p
    ensures r.costPrice == p.costPrice && r.name == p.name && r.specification == p.specification
  {
    if IsCounted(o.status) then Reserve(p, o.quantity) else p
  }

  // ---------------------------------------------------------------------
  // Stock movements

  /** The stock a new movement record leaves behind, given the stock before
      it: `in` adds, `out` subtracts (with no floor at zero), `adjust` sets
      the supplied target.  An `adjust` without a target cannot be stored. */
  function StockAfter(before: int, op: OpType, quantity: int, target: Option<int>): (r: Option<int>)
    ensures r.None? <==> op == Adjust && target.None?
    ensures op == In ==> r == Some(before + quantity)
    ensures op == Out ==> r == Some(before - quantity)
    ensures op == Adjust && target.Some? ==> r == target
  {
    match op
    case In => Some(before + quantity)
    case Out => Some(before - quantity)
    case Adjust => target
  }

  /** A movement in followed by a movement out of the same quantity (or the
      other way round) returns the stock to where it was. */
  lemma InThenOutRestores(before: int, quantity: int)
    ensures StockAfter(StockAfter(before, In, quantity, None).value, Out, quantity, None) == Some(before)
    ensures StockAfter(StockAfter(before, Out, quantity, None).value, In, quantity, None) == Some(before)
  {
  }

  /** An `out` movement larger than the stock drives it negative: the
      recorder itself does not clamp. */
  lemma OutIsNotClamped(before: int, quantity: int)
    requires 0 <= before < quantity
    ensures StockAfter(before, Out, quantity, None).value < 0
  {
  }

  // ---------------------------------------------------------------------
  // Status writes

  /** The order table after the orders `ids` get status `s`: no other
      column and no other order changes. */
  function WithStatus(orders: map<OrderId, Order>, ids: set<OrderId>, s: Status): (r: map<OrderId, Order>)
    ensures r.Keys == orders.Keys
    ensures forall x :: x in r ==> r[x] == if x in ids then orders[x].(status := s) else orders[x]
  {
    map x | x in orders :: if x in ids then orders[x].(status := s) else orders[x]
  }

  /** Writing the status of one more order is one more map update. */
  lemma WithStatusOneMore(orders: map<OrderId, Order>, ids: set<OrderId>, s: Status, x: OrderId)
    requires x in orders
    ensures WithStatus(orders, ids + {x}, s) == WithStatus(orders, ids, s)[x := orders[x].(status := s)]
  {
    var lhs := WithStatus(orders, ids + {x}, s);
    var rhs := WithStatus(orders, ids, s)[x := orders[x].(status := s)];
    assert lhs.Keys == rhs.Keys;
    forall y | y in lhs
      ensures lhs[y] == rhs[y]
    {
    }
  }

  // ---------------------------------------------------------------------
  // Batch profit

  /** What one order adds to the profit of batch `b`. */
  function ProfitShare(o: Order, b: BatchId): int {
    if o.batch == b && IsCounted(o.status) then o.grossProfit else 0
  }

  /** The sum of the shares of the orders named by `ids`. */
  ghost function SumShares(orders: map<OrderId, Order>, b: BatchId, ids: set<OrderId>): int
    requires ids <= orders.Keys
    decreases ids
  {
    if ids == {} then 0
    else
      var id :| id in ids;
      ProfitShare(orders[id], b) + SumShares(orders, b, ids - {id})
  }

  /** The total profit of batch `b`: the gross profit of its orders whose
      status is confirmed, shipping or completed. */
  ghost function BatchProfit(orders: map<OrderId, Order>, b: BatchId): int {
    SumShares(orders, b, orders.Keys)
  }

  /** Any one order can be taken out of the sum first. */
  lemma {:induction false} SumSharesSplit(orders: map<OrderId, Order>, b: BatchId, ids: set<OrderId>, id: OrderId)
    requires ids <= orders.Keys && id in ids
    ensures SumShares(orders, b, ids) == ProfitShare(orders[id], b) + SumShares(orders, b, ids - {id})
    decreases ids
  {
    var x :| x in ids && SumShares(orders, b, ids) == ProfitShare(orders[x], b) + SumShares(orders, b, ids - {x});
    if x != id {
      SumSharesSplit(orders, b, ids - {x}, id);
      SumSharesSplit(orders, b, ids - {id}, x);
      assert ids - {x} - {id} == ids - {id} - {x};
    }
  }

  /** Two order tables whose shares agree on `ids` have the same sum. */
  lemma {:induction false} SumSharesAgree(o1: map<OrderId, Order>, o2: map<OrderId, Order>, b: BatchId, ids: set<OrderId>)
    requires ids <= o1.Keys && ids <= o2.Keys
    requires forall id :: id in ids ==> ProfitShare(o1[id], b) == ProfitShare(o2[id], b)
    ensures SumShares(o1, b, ids) == SumShares(o2, b, ids)
    decreases ids
  {
    if ids != {} {
      var x :| x in ids && SumShares(o1, b, ids) == ProfitShare(o1[x], b) + SumShares(o1, b, ids - {x});
      SumSharesSplit(o2, b, ids, x);
      SumSharesAgree(o1, o2, b, ids - {x});
    }
  }

  /** A batch whose orders are all uncounted (or that has none) has profit 0. */
  lemma {:induction false} NoCountedOrdersNoProfit(orders: map<OrderId, Order>, b: BatchId, ids: set<OrderId>)
    requires ids <= orders.Keys
    requires forall id :: id in ids ==> !(orders[id].batch == b && IsCounted(orders[id].status))
    ensures SumShares(orders, b, ids) == 0
    decreases ids
  {
    if ids != {} {
      var x :| x in ids && SumShares(orders, b, ids) == ProfitShare(orders[x], b) + SumShares(orders, b, ids - {x});
      assert ProfitShare(orders[x], b) == 0;
      NoCountedOrdersNoProfit(orders, b, ids - {x});
    }
  }

  /** Replacing one order changes the batch profit by the change of that
      order's share and by nothing else. */
  lemma BatchProfitAfterUpdate(orders: map<OrderId, Order>, b: BatchId, id: OrderId, o: Order)
    requires id in orders
    ensures BatchProfit(orders[id := o], b) == BatchProfit(orders, b) - ProfitShare(orders[id], b) + ProfitShare(o, b)
  {
    var updated := orders[id := o];
    assert updated.Keys == orders.Keys;
    SumSharesSplit(orders, b, orders.Keys, id);
    SumSharesSplit(updated, b, updated.Keys, id);
    SumSharesAgree(orders, updated, b, orders.Keys - {id});
  }

  /** Adding a new order changes the batch profit by that order's share. */
  lemma BatchProfitAfterInsert(orders: map<OrderId, Order>, b: BatchId, id: OrderId, o: Order)
    requires id !in orders
    ensures BatchProfit(orders[id := o], b) == BatchProfit(orders, b) + ProfitShare(o, b)
  {
    var inserted := orders[id := o];
    assert inserted.Keys - {id} == orders.Keys;
    SumSharesSplit(inserted, b, inserted.Keys, id);
    SumSharesAgree(orders, inserted, b, orders.Keys);
  }

  /** An order that belongs to another batch before and after a change does
      not move the profit of batch `b`. */
  lemma OtherBatchUnaffected(orders: map<OrderId, Order>, b: BatchId, id: OrderId, o: Order)
    requires id in orders ==> orders[id].batch != b
    requires o.batch != b
    ensures BatchProfit(orders[id := o], b) == BatchProfit(orders, b)
  {
    if id in orders {
      BatchProfitAfterUpdate(orders, b, id, o);
    } else {
      BatchProfitAfterInsert(orders, b, id, o);
    }
  }

  /** The batch aggregate as the model computes it: a fold of the gross
      profit of the batch's counted orders over the order table. */
  method CountedProfit(orders: map<OrderId, Order>, b: BatchId) returns (total: int)
    ensures total == BatchProfit(orders, b)
  {
    total := 0;
    var rest := orders.Keys;
    while rest != {}
      invariant rest <= orders.Keys
      invariant total + SumShares(orders, b, rest) == BatchProfit(orders, b)
      decreases rest
    {
      var id :| id in rest;
      SumSharesSplit(orders, b, rest, id);
      var o := orders[id];
      if o.batch == b && IsCounted(o.status) {
        total := total + o.grossProfit;
      }
      rest := rest - {id};
    }
  }
}
