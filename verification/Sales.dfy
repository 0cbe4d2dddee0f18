/** Sales orders of one company: drafting, repricing at confirmation, the shipment
    payload and the order's status. */
module Sales {
  import opened Common
  import opened Decimals
  import opened Posting

  datatype OrderStatus = Draft | Confirmed | Shipped | Cancelled

  /** A stored line; `override` says the price was quoted by hand. */
  datatype OrderLine = OrderLine(product: Id, qty: int, price: int, override: bool, amount: int)

  datatype Order = Order(id: Id, customer: Id, currency: string, status: OrderStatus, total: int,
                         lines: seq<OrderLine>, shippedDay: int)

  datatype LineIn = LineIn(product: Id, qty: int, price: Option<int>)

  datatype Product = Product(listPrice: int, standardCost: int)

  /** What request parsing guarantees of a line. */
  predicate ParsedLine(l: LineIn) {
    l.qty > 0 && (l.price.Some? ==> l.price.value >= 0)
  }

  /** Prices and costs are never negative (schema and CHECK). */
  predicate CatalogOk(catalog: map<Id, Product>) {
    forall p :: p in catalog ==> catalog[p].listPrice >= 0 && catalog[p].standardCost >= 0
  }

  datatype Customer = Customer(currency: string, terms: nat, limit: int)

  type Customers = map<Id, Customer>

  /** Receivables deal in the functional currency only. */
  predicate Billable(customers: Customers, c: Id) {
    c in customers && customers[c].currency == Ledger.FUNCTIONAL_CURRENCY
  }

  type Catalog = c: map<Id, Product> | CatalogOk(c) witness map[]

  lemma ProductNonNegative(x: int, y: int)
    requires x >= 0 && y >= 0
    ensures x * y >= 0
  {
  }

  // ---------------------------------------------------------------------------
  // Building and repricing lines
  // ---------------------------------------------------------------------------

  function PriceOf(l: LineIn, catalog: map<Id, Product>): int
    requires l.product in catalog
  {
    if l.price.Some? then l.price.value else catalog[l.product].listPrice
  }

  function Stored(pico: int): int {
    if pico >= 0 then RoundToColumn(pico) else 0
  }

  function BuiltLine(l: LineIn, catalog: map<Id, Product>): OrderLine
    requires l.product in catalog
  {
    OrderLine(l.product, l.qty, PriceOf(l, catalog), l.price.Some?, Stored(l.qty * PriceOf(l, catalog)))
  }

  function BuiltLines(lines: seq<LineIn>, catalog: map<Id, Product>): (built: seq<OrderLine>)
    requires forall l :: l in lines ==> l.product in catalog
  {
    if lines == [] then [] else BuiltLines(lines[..|lines| - 1], catalog) + [BuiltLine(lines[|lines| - 1], catalog)]
  }

  /** The exact order total, before the column rounds it. */
  function BuiltTotal(lines: seq<LineIn>, catalog: map<Id, Product>): int
    requires forall l :: l in lines ==> l.product in catalog
  {
    if lines == [] then 0 else
    BuiltTotal(lines[..|lines| - 1], catalog) + lines[|lines| - 1].qty * PriceOf(lines[|lines| - 1], catalog)
  }

  /** A line at confirmation: overrides keep their price, the others take today's. */
  function RepricedLine(l: OrderLine, catalog: map<Id, Product>): OrderLine
    requires l.product in catalog
  {
    if l.override then l else
    var price := catalog[l.product].listPrice;
    l.(price := price, amount := Stored(l.qty * price))
  }

  function ExactAmount(l: OrderLine, catalog: map<Id, Product>): int
    requires l.product in catalog
  {
    if l.override then MICRO * l.amount else l.qty * catalog[l.product].listPrice
  }

  function Repriced(lines: seq<OrderLine>, catalog: map<Id, Product>): (r: seq<OrderLine>)
    requires forall l :: l in lines ==> l.product in catalog
    ensures |r| == |lines| && forall i :: 0 <= i < |r| ==> r[i] == RepricedLine(lines[i], catalog)
  {
    if lines == [] then [] else
    Repriced(lines[..|lines| - 1], catalog) + [RepricedLine(lines[|lines| - 1], catalog)]
  }

  function ExactTotal(lines: seq<OrderLine>, catalog: map<Id, Product>): int
    requires forall l :: l in lines ==> l.product in catalog
  {
    if lines == [] then 0 else
    ExactTotal(lines[..|lines| - 1], catalog) + ExactAmount(lines[|lines| - 1], catalog)
  }

  function AmountSum(lines: seq<OrderLine>): int {
    if lines == [] then 0 else AmountSum(lines[..|lines| - 1]) + lines[|lines| - 1].amount
  }

  ghost predicate LineSound(l: OrderLine) {
    l.qty > 0 && l.price >= 0 && l.amount >= 0
  }

  ghost predicate LinesSound(lines: seq<OrderLine>) {
    forall l :: l in lines ==> LineSound(l)
  }

  /** The total is rounded once and the lines one by one, so the stored total may
      differ from the sum of the stored lines, by at most half a unit per rounding. */
  lemma {:induction false} StoredTotalDrift(lines: seq<OrderLine>, catalog: map<Id, Product>)
    requires LinesSound(lines) && CatalogOk(catalog) && forall l :: l in lines ==> l.product in catalog
    ensures ExactTotal(lines, catalog) >= 0
    ensures var exact, n := ExactTotal(lines, catalog), |lines|;
            && -MICRO * n <= 2 * (MICRO * AmountSum(Repriced(lines, catalog)) - exact) <= MICRO * n
            && -(n + 1) <= 2 * (AmountSum(Repriced(lines, catalog)) - Stored(exact)) <= n + 1
  {
    if lines != [] {
      var front, last := lines[..|lines| - 1], lines[|lines| - 1];
      assert last in lines;
      forall l | l in front ensures l in lines {}
      StoredTotalDrift(front, catalog);
      var amount := ExactAmount(last, catalog);
      ProductNonNegative(last.qty, catalog[last.product].listPrice);
      StoredIsNear(amount);
      if last.override { GridPointsAreFixed(last.amount); }
      assert Repriced(lines, catalog)[..|lines| - 1] == Repriced(front, catalog);
    }
    StoredIsNear(ExactTotal(lines, catalog));
  }

  /** Which grid amount a stored amount is. */
  lemma StoredIs(pico: int, micro: int)
    requires pico >= 0
    ensures Stored(pico) == micro <==> -MICRO < 2 * (MICRO * micro - pico) <= MICRO
  {
    assert 2 * MICRO * Stored(pico) <= 2 * pico + MICRO < 2 * MICRO * (Stored(pico) + 1);
  }

  /** The stored total is the sum of the stored lines iff the roundings of the lines add up
      to at most half a unit, a tie counting in the lines' favour. */
  lemma StoredTotalAddsUpIff(lines: seq<OrderLine>, catalog: map<Id, Product>)
    requires LinesSound(lines) && CatalogOk(catalog) && forall l :: l in lines ==> l.product in catalog
    ensures var sum, exact := AmountSum(Repriced(lines, catalog)), ExactTotal(lines, catalog);
            sum == Stored(exact) <==> -MICRO < 2 * (MICRO * sum - exact) <= MICRO
  {
    StoredTotalDrift(lines, catalog);
    StoredIs(ExactTotal(lines, catalog), AmountSum(Repriced(lines, catalog)));
  }

  /** The same for a draft, as it is created or edited. */
  lemma DraftTotalAddsUpIff(lines: seq<LineIn>, catalog: map<Id, Product>)
    requires CatalogOk(catalog) && forall l :: l in lines ==> ParsedLine(l) && l.product in catalog
    ensures var sum, exact := AmountSum(BuiltLines(lines, catalog)), BuiltTotal(lines, catalog);
            sum == Stored(exact) <==> -MICRO < 2 * (MICRO * sum - exact) <= MICRO
  {
    BuiltIsNonNegative(lines, catalog);
    StoredIs(BuiltTotal(lines, catalog), AmountSum(BuiltLines(lines, catalog)));
  }

  lemma {:induction false} BuiltIsNonNegative(lines: seq<LineIn>, catalog: map<Id, Product>)
    requires CatalogOk(catalog) && forall l :: l in lines ==> ParsedLine(l) && l.product in catalog
    ensures BuiltTotal(lines, catalog) >= 0
  {
    if lines != [] {
      var front, last := lines[..|lines| - 1], lines[|lines| - 1];
      assert last in lines;
      forall l | l in front ensures l in lines {}
      BuiltIsNonNegative(front, catalog);
      ProductNonNegative(last.qty, PriceOf(last, catalog));
    }
  }

  lemma GridIsStored(pico: int)
    requires pico >= 0 && pico % MICRO == 0
    ensures MICRO * Stored(pico) == pico
  {
    GridPointsAreFixed(pico / MICRO);
  }

  /** Lines that need no rounding always add up. */
  lemma {:induction false} GridLinesAddUp(lines: seq<OrderLine>, catalog: map<Id, Product>)
    requires LinesSound(lines) && CatalogOk(catalog) && forall l :: l in lines ==> l.product in catalog
    requires forall l :: l in lines ==> ExactAmount(l, catalog) % MICRO == 0
    ensures MICRO * AmountSum(Repriced(lines, catalog)) == ExactTotal(lines, catalog)
    ensures AmountSum(Repriced(lines, catalog)) == Stored(ExactTotal(lines, catalog))
  {
    if lines != [] {
      var front, last := lines[..|lines| - 1], lines[|lines| - 1];
      assert last in lines;
      forall l | l in front ensures l in lines {}
      GridLinesAddUp(front, catalog);
      ProductNonNegative(last.qty, catalog[last.product].listPrice);
      GridIsStored(ExactAmount(last, catalog));
      assert Repriced(lines, catalog)[..|lines| - 1] == Repriced(front, catalog);
    }
    StoredTotalAddsUpIff(lines, catalog);
  }

  /** Two lines of half a unit each: the lines add up to two units, the total is one. */
  lemma StoredTotalsMayDiffer()
    ensures var catalog: map<Id, Product> := map[7 := Product(500_000, 0)];
            var line := OrderLine(7, 1, 500_000, false, 1);
            && AmountSum(Repriced([line, line], catalog)) == 2
            && Stored(ExactTotal([line, line], catalog)) == 1
  {
    var catalog: map<Id, Product> := map[7 := Product(500_000, 0)];
    var line := OrderLine(7, 1, 500_000, false, 1);
    assert [line, line][..1] == [line] && [line][..0] == [];
    assert ExactTotal([line], catalog) == 500_000 && ExactTotal([line, line], catalog) == 1_000_000;
    var repriced := Repriced([line, line], catalog);
    assert Stored(500_000) == 1;
    assert repriced == [line, line];
    assert AmountSum([line]) == 1;
  }

  lemma StoredIsNear(pico: int)
    requires pico >= 0
    ensures Stored(pico) >= 0 && -MICRO <= 2 * (MICRO * Stored(pico) - pico) <= MICRO
  {
    assert 2 * MICRO * Stored(pico) <= 2 * pico + MICRO < 2 * MICRO * (Stored(pico) + 1);
  }

  // ---------------------------------------------------------------------------
  // The shipment payload
  // ---------------------------------------------------------------------------

  function Payload(lines: seq<OrderLine>, catalog: map<Id, Product>): (r: seq<ShippedLine>)
    requires forall l :: l in lines ==> l.product in catalog
    ensures |r| == |lines|
    ensures forall i :: 0 <= i < |r| ==>
              r[i] == ShippedLine(lines[i].product, lines[i].qty, catalog[lines[i].product].standardCost)
  {
    if lines == [] then [] else
    var last := lines[|lines| - 1];
    Payload(lines[..|lines| - 1], catalog) + [ShippedLine(last.product, last.qty, catalog[last.product].standardCost)]
  }

  function CostTotal(lines: seq<OrderLine>, catalog: map<Id, Product>): int
    requires forall l :: l in lines ==> l.product in catalog
  {
    if lines == [] then 0 else
    var last := lines[|lines| - 1];
    CostTotal(lines[..|lines| - 1], catalog) + last.qty * catalog[last.product].standardCost
  }

  // ---------------------------------------------------------------------------
  // The order table
  // ---------------------------------------------------------------------------

  predicate Priced(lines: seq<OrderLine>, catalog: map<Id, Product>) {
    forall l :: l in lines ==> l.product in catalog
  }

  function Create(orders: map<Id, Order>, id: Id, customer: Id, customers: Customers, lines: seq<LineIn>,
                  catalog: Catalog): Outcome<map<Id, Order>> {
    if exists l :: l in lines && !ParsedLine(l) then Failed(Rejected)
    else if customer !in customers then Failed(Rejected)
    else if exists l :: l in lines && l.product !in catalog then Failed(Rejected)
    else if id in orders then Failed(CheckViolation)
    else
      var total, built := Stored(BuiltTotal(lines, catalog)), BuiltLines(lines, catalog);
      Done(orders[id := Order(id, customer, customers[customer].currency, Draft, total, built, 0)])
  }

  /** `lines` is None in an edit that leaves the lines alone. */
  function Update(orders: map<Id, Order>, id: Id, lines: Option<seq<LineIn>>, catalog: Catalog)
    : Outcome<map<Id, Order>>
  {
    if lines.Some? && exists l :: l in lines.value && !ParsedLine(l) then Failed(Rejected)
    else if id !in orders then Failed(NotFound)
    else if orders[id].status != Draft then Failed(Conflict)
    else if lines == None then Done(orders)
    else if exists l :: l in lines.value && l.product !in catalog then Failed(Rejected)
    else
      var total, built := Stored(BuiltTotal(lines.value, catalog)), BuiltLines(lines.value, catalog);
      Done(orders[id := orders[id].(total := total, lines := built)])
  }

  /** Everything `confirm_order` checks before the hook runs, given the customers there
      are; yields the exact total. */
  function PriceForConfirm(orders: map<Id, Order>, id: Id, known: set<Id>, catalog: map<Id, Product>): Outcome<int> {
    if id !in orders then Failed(NotFound)
    else if orders[id].status != Draft then Failed(Conflict)
    else if orders[id].lines == [] then Failed(Rejected)
    else if orders[id].customer !in known then Failed(Rejected)
    else if !Priced(orders[id].lines, catalog) then Failed(Rejected)
    else if ExactTotal(orders[id].lines, catalog) <= 0 then Failed(Rejected)
    else Done(ExactTotal(orders[id].lines, catalog))
  }

  function MarkConfirmed(orders: map<Id, Order>, id: Id, catalog: map<Id, Product>): map<Id, Order>
    requires id in orders && Priced(orders[id].lines, catalog)
  {
    var lines := orders[id].lines;
    var total := Stored(ExactTotal(lines, catalog));
    orders[id := orders[id].(status := Confirmed, lines := Repriced(lines, catalog), total := total)]
  }

  function ShipmentEvent(orders: map<Id, Order>, id: Id, catalog: map<Id, Product>, at: Date): Outcome<Event> {
    if id !in orders then Failed(NotFound)
    else if orders[id].status != Confirmed then Failed(Conflict)
    else if !Priced(orders[id].lines, catalog) then Failed(Rejected)
    else Done(Event(GoodsShipped, id, at, Payload(orders[id].lines, catalog), CostTotal(orders[id].lines, catalog)))
  }

  function MarkShipped(orders: map<Id, Order>, id: Id, at: Date): map<Id, Order>
    requires id in orders
  {
    orders[id := orders[id].(status := Shipped, shippedDay := at.day)]
  }

  function Cancel(orders: map<Id, Order>, id: Id): Outcome<map<Id, Order>> {
    if id !in orders then Failed(NotFound)
    else if orders[id].status == Cancelled || orders[id].status == Shipped then Failed(Conflict)
    else Done(orders[id := orders[id].(status := Cancelled)])
  }

  ghost predicate OrdersOk(orders: map<Id, Order>) {
    forall o :: o in orders ==> orders[o].id == o && orders[o].total >= 0 && LinesSound(orders[o].lines)
  }

  lemma {:induction false} BuiltSound(lines: seq<LineIn>, catalog: map<Id, Product>)
    requires CatalogOk(catalog) && forall l :: l in lines ==> ParsedLine(l) && l.product in catalog
    ensures LinesSound(BuiltLines(lines, catalog))
  {
    if lines != [] {
      var front, last := lines[..|lines| - 1], lines[|lines| - 1];
      assert last in lines;
      forall l | l in front ensures l in lines {}
      BuiltSound(front, catalog);
    }
  }

  lemma CreateKeeps(orders: map<Id, Order>, id: Id, customer: Id, customers: Customers, lines: seq<LineIn>,
                    catalog: Catalog)
    requires OrdersOk(orders) && Create(orders, id, customer, customers, lines, catalog).Done?
    ensures OrdersOk(Create(orders, id, customer, customers, lines, catalog).value)
  {
    BuiltSound(lines, catalog);
  }

  lemma UpdateKeeps(orders: map<Id, Order>, id: Id, lines: Option<seq<LineIn>>, catalog: Catalog)
    requires OrdersOk(orders) && Update(orders, id, lines, catalog).Done?
    ensures OrdersOk(Update(orders, id, lines, catalog).value)
  {
    if lines.Some? { BuiltSound(lines.value, catalog); }
  }

  lemma ConfirmKeeps(orders: map<Id, Order>, id: Id, known: set<Id>, catalog: Catalog)
    requires OrdersOk(orders) && PriceForConfirm(orders, id, known, catalog).Done?
    ensures OrdersOk(MarkConfirmed(orders, id, catalog))
  {
    var lines := Repriced(orders[id].lines, catalog);
    forall l | l in lines ensures LineSound(l) {
      var i :| 0 <= i < |lines| && lines[i] == l;
      assert orders[id].lines[i] in orders[id].lines;
    }
  }

  // ---------------------------------------------------------------------------
  // The service
  // ---------------------------------------------------------------------------

  class SalesService {
    var orders: map<Id, Order>

    constructor ()
      ensures orders == map[]
    {
      orders := map[];
    }

    static method BuildLines(lines: seq<LineIn>, catalog: map<Id, Product>) returns (built: seq<OrderLine>, total: int)
      requires forall l :: l in lines ==> l.product in catalog
      ensures built == BuiltLines(lines, catalog) && total == BuiltTotal(lines, catalog)
    {
      built, total := [], 0;
      for k := 0 to |lines|
        invariant forall l :: l in lines[..k] ==> l.product in catalog
        invariant built == BuiltLines(lines[..k], catalog) && total == BuiltTotal(lines[..k], catalog)
      {
        var line := lines[k];
        var isOverride := line.price.Some?;
        var unitPrice := if isOverride then line.price.value else catalog[line.product].listPrice;
        var amount := line.qty * unitPrice;
        built := built + [OrderLine(line.product, line.qty, unitPrice, isOverride, Stored(amount))];
        total := total + amount;
        assert lines[..k + 1][..k] == lines[..k];
      }
      assert lines[..|lines|] == lines;
    }

    method CreateOrder(id: Id, customer: Id, customers: Customers, lines: seq<LineIn>, catalog: Catalog)
      returns (error: Option<Error>)
      modifies this
      ensures match Create(old(orders), id, customer, customers, lines, catalog)
              case Done(after) => error == None && orders == after
              case Failed(e) => error == Some(e) && orders == old(orders)
    {
      if exists l :: l in lines && !ParsedLine(l) { return Some(Rejected); }
      if customer !in customers { return Some(Rejected); }
      if exists l :: l in lines && l.product !in catalog { return Some(Rejected); }
      var built, total := BuildLines(lines, catalog);
      if id in orders { return Some(CheckViolation); }
      orders := orders[id := Order(id, customer, customers[customer].currency, Draft, Stored(total), built, 0)];
      return None;
    }

    method UpdateOrder(id: Id, lines: Option<seq<LineIn>>, catalog: Catalog) returns (error: Option<Error>)
      modifies this
      ensures match Update(old(orders), id, lines, catalog)
              case Done(after) => error == None && orders == after
              case Failed(e) => error == Some(e) && orders == old(orders)
    {
      if lines.Some? && exists l :: l in lines.value && !ParsedLine(l) { return Some(Rejected); }
      if id !in orders { return Some(NotFound); }
      if orders[id].status != Draft { return Some(Conflict); }
      if lines.Some? {
        if exists l :: l in lines.value && l.product !in catalog { return Some(Rejected); }
        var built, total := BuildLines(lines.value, catalog);
        orders := orders[id := orders[id].(lines := built, total := Stored(total))];
      }
      return None;
    }

    /** The repricing loop of `confirm_order`, over the locked order's lines. */
    static method Reprice(lines: seq<OrderLine>, catalog: map<Id, Product>)
      returns (repriced: seq<OrderLine>, newTotal: int)
      requires Priced(lines, catalog)
      ensures repriced == Repriced(lines, catalog) && newTotal == ExactTotal(lines, catalog)
    {
      repriced, newTotal := [], 0;
      for k := 0 to |lines|
        invariant Priced(lines[..k], catalog)
        invariant repriced == Repriced(lines[..k], catalog) && newTotal == ExactTotal(lines[..k], catalog)
      {
        var line := lines[k];
        var exact := MICRO * line.amount;
        if !line.override {
          var price := catalog[line.product].listPrice;
          exact := line.qty * price;
          line := line.(price := price, amount := Stored(exact));
        }
        repriced := repriced + [line];
        newTotal := newTotal + exact;
        assert lines[..k + 1][..k] == lines[..k];
      }
      assert lines[..|lines|] == lines;
    }

    /** The payload loop of `ship_order`. */
    static method CollectPayload(lines: seq<OrderLine>, catalog: map<Id, Product>)
      returns (payload: seq<ShippedLine>, totalCost: int)
      requires Priced(lines, catalog)
      ensures payload == Payload(lines, catalog) && totalCost == CostTotal(lines, catalog)
    {
      payload, totalCost := [], 0;
      for k := 0 to |lines|
        invariant Priced(lines[..k], catalog)
        invariant payload == Payload(lines[..k], catalog) && totalCost == CostTotal(lines[..k], catalog)
      {
        var line := lines[k];
        var unitCost := catalog[line.product].standardCost;
        totalCost := totalCost + line.qty * unitCost;
        payload := payload + [ShippedLine(line.product, line.qty, unitCost)];
        assert lines[..k + 1][..k] == lines[..k];
      }
      assert lines[..|lines|] == lines;
    }

    method CancelOrder(id: Id) returns (error: Option<Error>)
      modifies this
      ensures match Cancel(old(orders), id)
              case Done(after) => error == None && orders == after
              case Failed(e) => error == Some(e) && orders == old(orders)
    {
      if id !in orders { return Some(NotFound); }
      if orders[id].status == Cancelled { return Some(Conflict); }
      if orders[id].status == Shipped { return Some(Conflict); }
      orders := orders[id := orders[id].(status := Cancelled)];
      return None;
    }
  }
}
