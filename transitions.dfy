/** The stock side effect of a status change.  The single-order endpoint and
    the bulk endpoint decide it differently: only the single-order one ever
    gives stock back. */
module Transitions {
  import opened Common
  import opened OrderStatus
  import opened Models

  datatype StockEffect = Take | GiveBack | Keep

  /** The effect of moving one order from `from` to `to` through the
      single-order endpoint: pending to a counted status takes the order's
      quantity (after a stock check), a counted status to cancelled or
      refunded gives it back, every other change only sets the status. */
  function SingleEffect(from: Status, to: Status): (e: StockEffect)
    ensures e == Take <==> from == Pending && IsCounted(to)
    ensures e == GiveBack <==> IsCounted(from) && (to == Cancelled || to == Refunded)
  {
    if from == Pending && IsCounted(to) then Take
    else if IsCounted(from) && (to == Cancelled || to == Refunded) then GiveBack
    else Keep
  }

  /** The effect of the same change through the bulk endpoint, which never
      gives stock back. */
  function BulkEffect(from: Status, to: Status): (e: StockEffect)
    ensures e == Take <==> from == Pending && IsCounted(to)
    ensures e != GiveBack
  {
    if from == Pending && IsCounted(to) then Take else Keep
  }

  /** The product row after an effect on an order of `quantity` units. */
  function ApplyEffect(p: Product, e: StockEffect, quantity: int): (r: Product)
    ensures r.currentStock + r.soldQuantity == p.currentStock + p.soldQuantity
    ensures e == Keep ==> r == p
    ensures r == p.(currentStock := r.currentStock, soldQuantity := r.soldQuantity)
  {
    match e
    case Take => Reserve(p, quantity)
    case GiveBack => Release(p, quantity)
    case Keep => p
  }

  /** The two endpoints agree on every change except a counted order being
      cancelled or refunded, which only the single-order endpoint undoes. */
  lemma EndpointsDifferOnlyOnRelease(from: Status, to: Status)
    ensures SingleEffect(from, to) != BulkEffect(from, to) <==> IsCounted(from) && (to == Cancelled || to == Refunded)
  {
  }

  /** Taking stock happens only where the stock check is made, so a product
      whose stock covers the order never goes negative by it. */
  lemma CheckedTakeKeepsStock(p: Product, from: Status, to: Status, quantity: int)
    requires p.currentStock >= 0
    requires SingleEffect(from, to) == Take ==> p.currentStock >= quantity
    requires quantity >= 0
    ensures ApplyEffect(p, SingleEffect(from, to), quantity).currentStock >= 0
  {
  }

  // ---------------------------------------------------------------------
  // Reservation versus counted status along a life of status changes

  /** The units an order holds after a sequence of single-order status
      changes starting in `from` while holding `held` units, if every
      required stock check passes. */
  function HeldAfter(from: Status, held: int, quantity: int, path: seq<Status>): int
    decreases |path|
  {
    if path == [] then held
    else
      var e := SingleEffect(from, path[0]);
      var held' := if e == Take then held + quantity else if e == GiveBack then held - quantity else held;
      HeldAfter(path[0], held', quantity, path[1..])
  }

  /** The lifecycle the endpoint is designed for keeps the reservation in
      step with the status: pending, confirmed, shipping, completed, then
      cancelled or refunded leaves nothing held. */
  lemma {:induction false} ForwardLifecycleBalances(quantity: int, last: Status)
    requires last == Cancelled || last == Refunded
    ensures HeldAfter(Pending, 0, quantity, [Confirmed, Shipping, Completed, last]) == 0
  {
    var path := [Confirmed, Shipping, Completed, last];
    assert path[1..] == [Shipping, Completed, last];
    assert path[1..][1..] == [Completed, last];
    assert path[1..][1..][1..] == [last];
    assert path[1..][1..][1..][1..] == [];
    calc {
      HeldAfter(Pending, 0, quantity, path);
      HeldAfter(Confirmed, quantity, quantity, path[1..]);
      HeldAfter(Shipping, quantity, quantity, path[1..][1..]);
      HeldAfter(Completed, quantity, quantity, path[1..][1..][1..]);
      HeldAfter(last, 0, quantity, []);
    }
  }

  /** The refund path keeps the stock: a confirmed order that goes through
      refund_requested to refunded still holds its quantity, because the
      release is only made from a counted status. */
  lemma {:induction false} RefundPathKeepsReservation(quantity: int)
    ensures HeldAfter(Pending, 0, quantity, [Confirmed, RefundRequested, Refunding, Refunded]) == quantity
  {
    var path := [Confirmed, RefundRequested, Refunding, Refunded];
    assert path[1..] == [RefundRequested, Refunding, Refunded];
    assert path[1..][1..] == [Refunding, Refunded];
    assert path[1..][1..][1..] == [Refunded];
    assert path[1..][1..][1..][1..] == [];
  }

  /** Re-confirming a cancelled order counts it again without taking stock,
      because the take is only made from pending. */
  lemma {:induction false} ReconfirmAfterCancelTakesNothing(quantity: int)
    ensures HeldAfter(Pending, 0, quantity, [Confirmed, Cancelled, Confirmed]) == 0
    ensures IsCounted(Confirmed)
  {
    var path := [Confirmed, Cancelled, Confirmed];
    assert path[1..] == [Cancelled, Confirmed];
    assert path[1..][1..] == [Confirmed];
    assert path[1..][1..][1..] == [];
  }

  // ---------------------------------------------------------------------
  // The bulk endpoint's product copies

  /** The product rows after the bulk endpoint, as written, has visited the
      orders `visit` in that order, moving them to `to`.  The endpoint loads
      every selected order together with its own copy of its product before
      the loop (`loaded`); it checks the stock of that copy and writes back
      the copy's stock less the order's quantity.  Two orders of one product
      therefore see the same stock, and the later write replaces the
      earlier one. */
  function StaleBulkStock(loaded: map<ProductId, Product>, products: map<ProductId, Product>,
                          visit: seq<Order>, to: Status): (r: map<ProductId, Product>)
    ensures r.Keys == products.Keys
    decreases |visit|
  {
    if visit == [] then products
    else
      var o := visit[0];
      var next :=
        if BulkEffect(o.status, to) == Take && o.product in loaded && o.product in products
           && loaded[o.product].currentStock >= o.quantity
        then products[o.product := Reserve(loaded[o.product], o.quantity)]
        else products;
      StaleBulkStock(loaded, next, visit[1..], to)
  }

  /** Two pending orders of 3 and 4 units of one product with 10 in stock,
      confirmed together as written: both become confirmed, yet the product
      ends with 6 in stock and 4 sold instead of 3 and 7.  With 5 in stock
      both still pass the check, although only one of them fits. */
  lemma {:induction false} StaleBulkStockLosesUpdate()
    ensures
      var o1 := Order(0, 0, 0, 3, 0, 0, 0, 0, 0, Pending, 0);
      var o2 := o1.(quantity := 4);
      var ten := map[0 := Product("p", "", 0, 10, 0)];
      var five := map[0 := Product("p", "", 0, 5, 0)];
      && StaleBulkStock(ten, ten, [o1, o2], Confirmed)[0].currentStock == 6
      && StaleBulkStock(ten, ten, [o1, o2], Confirmed)[0].soldQuantity == 4
      && StaleBulkStock(five, five, [o1, o2], Confirmed)[0].soldQuantity == 4
      && StaleBulkStock(five, five, [o1, o2], Confirmed)[0].currentStock == 1
  {
    var o1 := Order(0, 0, 0, 3, 0, 0, 0, 0, 0, Pending, 0);
    var o2 := o1.(quantity := 4);
    assert [o1, o2][1..] == [o2];
    assert [o2][1..] == [];
    var ten := map[0 := Product("p", "", 0, 10, 0)];
    var five := map[0 := Product("p", "", 0, 5, 0)];
    assert StaleBulkStock(ten, ten, [o1, o2], Confirmed)
        == StaleBulkStock(ten, ten[0 := Reserve(ten[0], 3)], [o2], Confirmed)
        == StaleBulkStock(ten, ten[0 := Reserve(ten[0], 4)], [], Confirmed);
    assert StaleBulkStock(five, five, [o1, o2], Confirmed)
        == StaleBulkStock(five, five[0 := Reserve(five[0], 3)], [o2], Confirmed)
        == StaleBulkStock(five, five[0 := Reserve(five[0], 4)], [], Confirmed);
  }
}
