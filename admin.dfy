/** The administration console: its stock badge, its order numbers, its
    permission hooks and its bulk status actions on the order table. */
module AdminSite {
  import opened Common
  import opened OrderStatus
  import opened Models
  import opened Permissions
  import Validators

  // ---------------------------------------------------------------------
  // Stock badge

  datatype StockBadge = Empty | Low | Sufficient

  /** The badge shown beside a product's stock. */
  function StockBadgeOf(stock: int): (b: StockBadge)
    ensures b == Empty <==> stock == 0
    ensures b == Sufficient <==> stock >= 10
  {
    if stock == 0 then Empty
    else if stock < 10 then Low
    else Sufficient
  }

  /** The console badge and the API's stock level classify every stock the
      same way. */
  lemma BadgeAgreesWithStockLevel(stock: int)
    ensures StockBadgeOf(stock) == Empty <==> Validators.StockLevelOf(stock) == Validators.OutOfStock
    ensures StockBadgeOf(stock) == Low <==> Validators.StockLevelOf(stock) == Validators.LowStock
    ensures StockBadgeOf(stock) == Sufficient <==> Validators.StockLevelOf(stock) == Validators.InStock
  {
  }

  // ---------------------------------------------------------------------
  // Order numbers

  predicate IsDigit(c: char) {
    '0' <= c <= '9'
  }

  predicate AllDigits(s: string) {
    forall i :: 0 <= i < |s| ==> IsDigit(s[i])
  }

  /** The decimal digits of `n`, without leading zeros. */
  function Digits(n: nat): (s: string)
    ensures |s| >= 1 && AllDigits(s)
    ensures n >= 10 ==> |s| >= 2
  {
    if n < 10 then [(n + '0' as int) as char]
    else Digits(n / 10) + [(n % 10 + '0' as int) as char]
  }

  /** The number a string of digits denotes. */
  function DigitsValue(s: string): nat
    requires AllDigits(s)
  {
    if s == [] then 0
    else DigitsValue(s[..|s| - 1]) * 10 + (s[|s| - 1] as int - '0' as int)
  }

  function Zeros(k: nat): (s: string)
    ensures |s| == k && AllDigits(s)
    ensures forall i :: 0 <= i < k ==> s[i] == '0'
  {
    if k == 0 then [] else Zeros(k - 1) + ['0']
  }

  lemma {:induction false} DigitsRoundTrip(n: nat)
    ensures DigitsValue(Digits(n)) == n
  {
    if n >= 10 {
      var s := Digits(n);
      assert s[..|s| - 1] == Digits(n / 10);
      DigitsRoundTrip(n / 10);
    }
  }

  lemma {:induction false} ZerosDenoteZero(k: nat)
    ensures DigitsValue(Zeros(k)) == 0
  {
    if k > 0 {
      assert Zeros(k)[..k - 1] == Zeros(k - 1);
      ZerosDenoteZero(k - 1);
    }
  }

  /** Leading zeros do not change the number a digit string denotes. */
  lemma {:induction false} LeadingZerosIgnored(k: nat, s: string)
    requires AllDigits(s)
    ensures AllDigits(Zeros(k) + s)
    ensures DigitsValue(Zeros(k) + s) == DigitsValue(s)
    decreases |s|
  {
    var z := Zeros(k) + s;
    if s == [] {
      assert z == Zeros(k);
      ZerosDenoteZero(k);
    } else {
      assert z[..|z| - 1] == Zeros(k) + s[..|s| - 1];
      LeadingZerosIgnored(k, s[..|s| - 1]);
    }
  }

  const OrderNumberWidth := 6

  /** The console's order number: '#' and the id, zero-padded to six digits. */
  function OrderNumber(id: nat): (r: string)
    ensures |r| == 1 + (if |Digits(id)| < OrderNumberWidth then OrderNumberWidth else |Digits(id)|)
    ensures r[0] == '#' && AllDigits(r[1..])
  {
    var d := Digits(id);
    var pad := if |d| < OrderNumberWidth then OrderNumberWidth - |d| else 0;
    assert AllDigits(Zeros(pad) + d);
    "#" + Zeros(pad) + d
  }

  /** The digits of an order number give back the order's id, so two orders
      never share a number. */
  lemma OrderNumberRoundTrip(id: nat)
    ensures AllDigits(OrderNumber(id)[1..])
    ensures DigitsValue(OrderNumber(id)[1..]) == id
  {
    var d := Digits(id);
    var pad := if |d| < OrderNumberWidth then OrderNumberWidth - |d| else 0;
    assert OrderNumber(id)[1..] == Zeros(pad) + d;
    LeadingZerosIgnored(pad, d);
    DigitsRoundTrip(id);
  }

  lemma OrderNumberInjective(a: nat, b: nat)
    requires OrderNumber(a) == OrderNumber(b)
    ensures a == b
  {
    OrderNumberRoundTrip(a);
    OrderNumberRoundTrip(b);
  }

  // ---------------------------------------------------------------------
  // Permission hooks

  /** Only staff may add users in the console; this is the API's staff-only
      rule applied to a signed-in console user. */
  function MayAddUser(u: User): (ok: bool)
    ensures ok == AdminUserOnly(SignedIn(u))
  {
    u.isSuperuser || u.userType == Admin
  }

  /** Only staff may delete users in the console. */
  function MayDeleteUser(u: User): (ok: bool)
    ensures ok == AdminUserOnly(SignedIn(u))
  {
    MayAddUser(u)
  }

  /** Nobody, staff included, may delete a stock record in the console. */
  function MayDeleteStockRecord(u: User): (ok: bool)
    ensures !ok
  {
    false
  }

  // ---------------------------------------------------------------------
  // Bulk status actions

  /** The selected orders whose status is one of `from`. */
  function Matching(orders: map<OrderId, Order>, selected: set<OrderId>, from: set<Status>): (ids: set<OrderId>)
    ensures ids <= selected && ids <= orders.Keys
    ensures forall id :: id in ids <==> id in selected && id in orders && orders[id].status in from
  {
    set id | id in selected && id in orders && orders[id].status in from
  }

  /** The order table after one bulk update: the matching orders get status
      `to`; every other field of every order, and every other order, stays. */
  function BulkSetStatus(orders: map<OrderId, Order>, selected: set<OrderId>, from: set<Status>, to: Status)
    : (r: map<OrderId, Order>)
    ensures r.Keys == orders.Keys
    ensures forall id :: id in Matching(orders, selected, from) ==> r[id] == orders[id].(status := to)
    ensures forall id :: id in orders && id !in Matching(orders, selected, from) ==> r[id] == orders[id]
  {
    WithStatus(orders, Matching(orders, selected, from), to)
  }

  const ConfirmFrom: set<Status> := {Pending}
  const CancelFrom: set<Status> := {Pending, Confirmed}
  const CompleteFrom: set<Status> := {Shipping}

  /** Confirming in the console a pending order of batch `b`, the only
      selected pending order of that batch, adds its gross profit to the
      batch's profit.  The stored total is not recomputed (the bulk update
      bypasses the order save), so a total that matched before no longer
      matches when that profit is not zero. */
  lemma BulkConfirmLeavesBatchTotalStale(orders: map<OrderId, Order>, selected: set<OrderId>, id: OrderId, total: int)
    requires id in selected && id in orders && orders[id].status == Pending
    requires forall x :: x in Matching(orders, selected, ConfirmFrom) && orders[x].batch == orders[id].batch ==> x == id
    requires total == BatchProfit(orders, orders[id].batch) && orders[id].grossProfit != 0
    ensures BatchProfit(BulkSetStatus(orders, selected, ConfirmFrom, Confirmed), orders[id].batch)
         == BatchProfit(orders, orders[id].batch) + orders[id].grossProfit
    ensures BatchProfit(BulkSetStatus(orders, selected, ConfirmFrom, Confirmed), orders[id].batch) != total
  {
    var b := orders[id].batch;
    var after := BulkSetStatus(orders, selected, ConfirmFrom, Confirmed);
    var mid := orders[id := orders[id].(status := Confirmed)];
    BatchProfitAfterUpdate(orders, b, id, orders[id].(status := Confirmed));
    assert mid.Keys == after.Keys;
    forall x | x in after.Keys
      ensures ProfitShare(after[x], b) == ProfitShare(mid[x], b)
    {
    }
    SumSharesAgree(after, mid, b, after.Keys);
  }
}
