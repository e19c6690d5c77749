/** The checks the request serializers make before the engine runs, and the
    two values the product listing derives from a product row. */
module Validators {
  import opened Common
  import opened OrderStatus
  import opened Models

  // ---------------------------------------------------------------------
  // Order creation and update

  /** The field bounds the order model declares (quantity at least 1, unit
      price and other costs not negative), which the order serializers
      enforce before their own checks. */
  function OrderFieldsCheck(quantity: int, unitPrice: int, otherCosts: int): (r: Check)
    ensures r.Pass? <==> quantity >= 1 && unitPrice >= 0 && otherCosts >= 0
  {
    if quantity < 1 then Fail(QuantityBelowOne)
    else if unitPrice < 0 then Fail(NegativeUnitPrice)
    else if otherCosts < 0 then Fail(NegativeOtherCosts)
    else Pass
  }

  /** The same bounds on a partial update, which checks only the fields the
      request carries. */
  function OrderEditFieldsCheck(quantity: Option<int>, unitPrice: Option<int>, otherCosts: Option<int>): (r: Check)
    ensures r.Pass? <==> (quantity.Some? ==> quantity.value >= 1)
                         && (unitPrice.Some? ==> unitPrice.value >= 0)
                         && (otherCosts.Some? ==> otherCosts.value >= 0)
  {
    if quantity.Some? && quantity.value < 1 then Fail(QuantityBelowOne)
    else if unitPrice.Some? && unitPrice.value < 0 then Fail(NegativeUnitPrice)
    else if otherCosts.Some? && otherCosts.value < 0 then Fail(NegativeOtherCosts)
    else Pass
  }

  /** Creating an order in a counted status needs stock for its quantity;
      an order created in any other status (or with none) needs none. */
  function OrderCreateCheck(status: Option<Status>, product: Product, quantity: int): (r: Check)
    ensures r.Fail? <==> status.Some? && IsCounted(status.value) && product.currentStock < quantity
    ensures r.Fail? ==> r.error == InsufficientStock(product.currentStock)
  {
    if status.Some? && IsCounted(status.value) && product.currentStock < quantity then
      Fail(InsufficientStock(product.currentStock))
    else Pass
  }

  /** A creation that passes the check does not drive a non-negative stock
      below zero when the new order is saved. */
  lemma CheckedCreationKeepsStock(product: Product, o: Order)
    requires product.currentStock >= 0
    requires OrderCreateCheck(Some(o.status), product, o.quantity).Pass?
    ensures AfterCreation(product, o).currentStock >= 0
  {
  }

  /** The units an order update must find in stock, when it must find any:
      a pending order moving to a counted status needs its whole new
      quantity; an order already past pending needs only the increase. */
  function UpdateStockNeed(current: Order, newStatus: Status, newQuantity: int): Option<int> {
    if (current.status == Pending && IsCounted(newStatus))
       || (newQuantity > current.quantity && IsCounted(newStatus))
    then Some(newQuantity - (if current.status != Pending then current.quantity else 0))
    else None
  }

  /** Updating an order checks stock only when it moves from pending to a
      counted status or grows while counted; fields the request omits keep
      their stored values. */
  function OrderUpdateCheck(current: Order, stock: int, newStatus: Option<Status>, newQuantity: Option<int>): (r: Check)
    ensures
      var s := if newStatus.Some? then newStatus.value else current.status;
      var q := if newQuantity.Some? then newQuantity.value else current.quantity;
      r.Fail? <==> IsCounted(s) && (current.status == Pending || q > current.quantity)
                   && stock < q - (if current.status == Pending then 0 else current.quantity)
    ensures r.Fail? ==> r.error == InsufficientStock(stock)
  {
    var s := if newStatus.Some? then newStatus.value else current.status;
    var q := if newQuantity.Some? then newQuantity.value else current.quantity;
    var need := UpdateStockNeed(current, s, q);
    if need.Some? && stock < need.value then Fail(InsufficientStock(stock)) else Pass
  }

  /** For a pending order the update check is exactly the creation check of
      an order with the new status and quantity. */
  lemma PendingUpdateIsCreationCheck(current: Order, product: Product, newStatus: Status, newQuantity: int)
    requires current.status == Pending
    ensures OrderUpdateCheck(current, product.currentStock, Some(newStatus), Some(newQuantity))
         == OrderCreateCheck(Some(newStatus), product, newQuantity)
  {
  }

  /** An update that leaves the status and quantity alone is never refused
      for stock, whatever the stock is. */
  lemma UnchangedUpdateNeedsNoStock(current: Order, stock: int)
    requires current.status != Pending
    ensures OrderUpdateCheck(current, stock, None, None).Pass?
  {
  }

  // ---------------------------------------------------------------------
  // Stock records

  /** A new stock record: an `adjust` must carry a target that is not
      negative; an `out` may not exceed the stock; `in` and `out` need a
      positive quantity.  Checked in that order. */
  function StockRecordCheck(op: OpType, quantity: int, afterStock: Option<int>, product: Product): (r: Check)
    ensures op == Adjust ==> (r.Pass? <==> afterStock.Some? && afterStock.value >= 0)
    ensures op == In ==> (r.Pass? <==> quantity > 0)
    ensures op == Out ==> (r.Pass? <==> 0 < quantity <= product.currentStock)
    ensures op == Out && quantity > product.currentStock ==> r == Fail(OutExceedsStock)
  {
    if op == Adjust then
      if afterStock.None? then Fail(MissingAfterStock)
      else if afterStock.value < 0 then Fail(NegativeAfterStock)
      else Pass
    else if op == Out && quantity > product.currentStock then Fail(OutExceedsStock)
    else if quantity <= 0 then Fail(NonPositiveQuantity)
    else Pass
  }

  /** A record that passes the check can be stored and leaves a stock that
      was not negative still not negative: a checked `out` never oversells. */
  lemma CheckedMovementKeepsStock(op: OpType, quantity: int, afterStock: Option<int>, product: Product)
    requires product.currentStock >= 0
    requires StockRecordCheck(op, quantity, afterStock, product).Pass?
    ensures StockAfter(product.currentStock, op, quantity, afterStock).Some?
    ensures StockAfter(product.currentStock, op, quantity, afterStock).value >= 0
  {
  }

  /** The stock-in form takes a quantity of at least one. */
  function StockInCheck(quantity: int): (r: Check)
    ensures r.Pass? <==> quantity >= 1
  {
    if quantity < 1 then Fail(NonPositiveQuantity) else Pass
  }

  // ---------------------------------------------------------------------
  // Bulk order entries

  /** One entry of a bulk order request; any field may be absent.  Amounts
      are in cents. */
  datatype OrderEntry = OrderEntry(
    customerId: Option<CustomerId>,
    productId: Option<ProductId>,
    quantity: Option<int>,
    unitPrice: Option<int>,
    otherCosts: Option<int>,
    status: Option<string>)

  const MinEntries := 1
  const MaxEntries := 100

  /** The first thing wrong with one entry, if anything: the required fields
      in the order customer_id, product_id, quantity, unit_price; then that
      the customer and product exist; then the quantity and the price. */
  function EntryError(e: OrderEntry, customers: set<CustomerId>, products: set<ProductId>): (r: Option<Error>)
    ensures r.None? <==>
      && e.customerId.Some? && e.productId.Some? && e.quantity.Some? && e.unitPrice.Some?
      && e.customerId.value in customers && e.productId.value in products
      && e.quantity.value > 0 && e.unitPrice.value >= 0
  {
    if e.customerId.None? then Some(MissingField("customer_id"))
    else if e.productId.None? then Some(MissingField("product_id"))
    else if e.quantity.None? then Some(MissingField("quantity"))
    else if e.unitPrice.None? then Some(MissingField("unit_price"))
    else if e.customerId.value !in customers || e.productId.value !in products then Some(UnknownCustomerOrProduct)
    else if e.quantity.value <= 0 then Some(NonPositiveQuantity)
    else if e.unitPrice.value < 0 then Some(NegativeUnitPrice)
    else None
  }

  predicate EntryValid(e: OrderEntry, customers: set<CustomerId>, products: set<ProductId>) {
    EntryError(e, customers, products).None?
  }

  /** The error of the first invalid entry, if there is one. */
  function FirstEntryError(entries: seq<OrderEntry>, customers: set<CustomerId>, products: set<ProductId>): (r: Option<Error>)
    ensures r.None? <==> forall i :: 0 <= i < |entries| ==> EntryValid(entries[i], customers, products)
    ensures r.Some? ==> exists i :: 0 <= i < |entries| && EntryError(entries[i], customers, products) == r
                                    && forall j :: 0 <= j < i ==> EntryValid(entries[j], customers, products)
    decreases |entries|
  {
    if entries == [] then None
    else
      var e := EntryError(entries[0], customers, products);
      if e.Some? then e
      else
        var rest := FirstEntryError(entries[1..], customers, products);
        assert forall i :: 1 <= i < |entries| ==> entries[i] == entries[1..][i - 1];
        rest
  }

  /** The outcome the bulk order serializer gives for a list of entries. */
  function EntriesOutcome(entries: seq<OrderEntry>, customers: set<CustomerId>, products: set<ProductId>): Result<seq<OrderEntry>> {
    if |entries| < MinEntries || |entries| > MaxEntries then Err(WrongEntryCount)
    else
      var e := FirstEntryError(entries, customers, products);
      if e.Some? then Err(e.value) else Ok(entries)
  }

  /** The bulk order serializer's check of its entry list: between one and a
      hundred entries, each valid; a valid list is returned unchanged. */
  method ValidateOrders(entries: seq<OrderEntry>, customers: set<CustomerId>, products: set<ProductId>)
    returns (r: Result<seq<OrderEntry>>)
    ensures r.Ok? <==> MinEntries <= |entries| <= MaxEntries
                       && forall i :: 0 <= i < |entries| ==> EntryValid(entries[i], customers, products)
    ensures r.Ok? ==> r.value == entries
    ensures r == EntriesOutcome(entries, customers, products)
  {
    if |entries| < MinEntries || |entries| > MaxEntries {
      return Err(WrongEntryCount);
    }
    var validated: seq<OrderEntry> := [];
    var i := 0;
    while i < |entries|
      invariant 0 <= i <= |entries|
      invariant validated == entries[..i]
      invariant FirstEntryError(entries, customers, products)
             == FirstEntryError(entries[i..], customers, products)
    {
      var e := EntryError(entries[i], customers, products);
      if e.Some? {
        return Err(e.value);
      }
      assert entries[i..][1..] == entries[i + 1..];
      validated := validated + [entries[i]];
      i := i + 1;
    }
    assert entries[..i] == entries;
    return Ok(validated);
  }

  // ---------------------------------------------------------------------
  // Product listing

  datatype StockLevel = OutOfStock | LowStock | InStock

  const LowStockThreshold := 10

  /** The stock level shown for a product: out of stock at exactly zero,
      low below ten, in stock otherwise. */
  function StockLevelOf(stock: int): (l: StockLevel)
    ensures l == OutOfStock <==> stock == 0
    ensures l == InStock <==> stock >= LowStockThreshold
  {
    if stock == 0 then OutOfStock
    else if stock < LowStockThreshold then LowStock
    else InStock
  }

  /** A product oversold into negative stock is shown as low, not as out of
      stock, since only a stock of exactly zero reads as out of stock. */
  lemma NegativeStockShowsLow(stock: int)
    requires stock < 0
    ensures StockLevelOf(stock) == LowStock
  {
  }

  /** The listed sold value: the cost price times the sold quantity. */
  function TotalSoldValue(p: Product): (v: int)
    ensures p.soldQuantity >= 0 && p.costPrice >= 0 ==> v >= 0
  {
    p.costPrice * p.soldQuantity
  }

  /** Reserving and releasing move the sold value by the cost of the units. */
  lemma SoldValueFollowsReservations(p: Product, quantity: int)
    ensures TotalSoldValue(Reserve(p, quantity)) == TotalSoldValue(p) + p.costPrice * quantity
    ensures TotalSoldValue(Release(p, quantity)) == TotalSoldValue(p) - p.costPrice * quantity
  {
    assert p.costPrice * (p.soldQuantity + quantity) == p.costPrice * p.soldQuantity + p.costPrice * quantity;
    assert p.costPrice * (p.soldQuantity - quantity) == p.costPrice * p.soldQuantity - p.costPrice * quantity;
  }

  // ---------------------------------------------------------------------
  // Users

  const MinPasswordLength := 8

  /** The user serializer's check: when a confirmation is given it must
      equal the password; a confirmation sent without a password is a
      lookup of a missing key and fails too.  Both arguments are the field
      values after the serializer's field parsing, which trims surrounding
      whitespace; the trimming itself is not modelled. */
  function UserCheck(password: Option<string>, confirm: Option<string>): (r: Check)
    ensures r.Pass? <==> confirm.None? || (password.Some? && password.value == confirm.value)
    ensures confirm.Some? && password.Some? && password.value != confirm.value ==> r == Fail(PasswordMismatch)
  {
    if confirm.None? then Pass
    else if password.None? then Fail(PasswordKeyMissing)
    else if password.value != confirm.value then Fail(PasswordMismatch)
    else Pass
  }
}
