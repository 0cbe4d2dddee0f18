/** What the lines of an order add up to, said line by line: worth at today's prices,
    cost, and quantity of one product. The folds of the services are shown to agree. */
module OrderSums {
  import opened Common
  import opened Decimals
  import opened Sums
  import opened Posting
  import opened Inventory
  import opened Sales

  /** The exact worth of a line asked for: its quoted price, or the list price. */
  ghost function QuoteOf(catalog: map<Id, Product>): LineIn -> int {
    (l: LineIn) =>
      match l.price
      case Some(price) => l.qty * price
      case None => if l.product in catalog then l.qty * catalog[l.product].listPrice else 0
  }

  /** The exact worth of a stored line today: its frozen amount if it was priced by hand,
      and otherwise quantity times list price. */
  ghost function WorthOf(catalog: map<Id, Product>): OrderLine -> int {
    (l: OrderLine) =>
      if l.override then MICRO * l.amount
      else if l.product in catalog then l.qty * catalog[l.product].listPrice
      else 0
  }

  /** The exact cost of a line today. */
  ghost function CostOf(catalog: map<Id, Product>): OrderLine -> int {
    (l: OrderLine) => if l.product in catalog then l.qty * catalog[l.product].standardCost else 0
  }

  ghost function QtyOf(p: Id): OrderLine -> int {
    (l: OrderLine) => if l.product == p then l.qty else 0
  }

  /** The exact cost a shipped line was published with. */
  function ShippedCost(l: ShippedLine): int { l.qty * l.unitCost }

  ghost function Quote(lines: seq<LineIn>, catalog: map<Id, Product>): int { SumOf(lines, QuoteOf(catalog)) }

  ghost function Worth(lines: seq<OrderLine>, catalog: map<Id, Product>): int { SumOf(lines, WorthOf(catalog)) }

  ghost function Cost(lines: seq<OrderLine>, catalog: map<Id, Product>): int { SumOf(lines, CostOf(catalog)) }

  /** The quantity of one product over all lines. */
  ghost function QtyIn(lines: seq<OrderLine>, p: Id): int { SumOf(lines, QtyOf(p)) }

  // ---------------------------------------------------------------------------
  // The folds of the services
  // ---------------------------------------------------------------------------

  lemma {:induction false} QuoteIsBuilt(lines: seq<LineIn>, catalog: map<Id, Product>)
    requires forall l :: l in lines ==> l.product in catalog
    ensures Quote(lines, catalog) == BuiltTotal(lines, catalog)
  {
    if lines != [] {
      SumOfLast(lines, QuoteOf(catalog));
      QuoteIsBuilt(lines[..|lines| - 1], catalog);
    }
  }

  lemma {:induction false} WorthIsExact(lines: seq<OrderLine>, catalog: map<Id, Product>)
    requires Priced(lines, catalog)
    ensures Worth(lines, catalog) == ExactTotal(lines, catalog)
  {
    if lines != [] {
      SumOfLast(lines, WorthOf(catalog));
      WorthIsExact(lines[..|lines| - 1], catalog);
    }
  }

  lemma {:induction false} CostIsTotal(lines: seq<OrderLine>, catalog: map<Id, Product>)
    requires Priced(lines, catalog)
    ensures Cost(lines, catalog) == CostTotal(lines, catalog)
    ensures SumOf(Payload(lines, catalog), ShippedCost) == CostTotal(lines, catalog)
  {
    if lines != [] {
      var front := lines[..|lines| - 1];
      SumOfLast(lines, CostOf(catalog));
      SumOfLast(Payload(lines, catalog), ShippedCost);
      assert Payload(lines, catalog)[..|lines| - 1] == Payload(front, catalog);
      CostIsTotal(front, catalog);
    }
  }

  lemma {:induction false} QtyIsDemanded(lines: seq<OrderLine>, catalog: map<Id, Product>, p: Id)
    requires Priced(lines, catalog)
    ensures QtyIn(lines, p) == Demand(Payload(lines, catalog), p)
  {
    if lines != [] {
      var front := lines[..|lines| - 1];
      SumOfLast(lines, QtyOf(p));
      assert Payload(lines, catalog)[..|lines| - 1] == Payload(front, catalog);
      QtyIsDemanded(front, catalog, p);
    }
  }

  /** Every product of the order is on hand in the quantity the order needs of it. */
  ghost predicate InStock(onHand: map<Id, int>, lines: seq<OrderLine>) {
    forall l :: l in lines ==> QtyIn(lines, l.product) <= OnHand(onHand, l.product)
  }

  lemma InStockIsCovered(onHand: map<Id, int>, lines: seq<OrderLine>, catalog: map<Id, Product>)
    requires Priced(lines, catalog)
    ensures InStock(onHand, lines) <==> Covered(onHand, Payload(lines, catalog))
  {
    hide OnHand, Demand, QtyIn;
    var payload := Payload(lines, catalog);
    if InStock(onHand, lines) {
      forall l | l in payload ensures Demand(payload, l.product) <= OnHand(onHand, l.product) {
        var k :| 0 <= k < |payload| && payload[k] == l;
        assert lines[k] in lines;
        QtyIsDemanded(lines, catalog, l.product);
      }
    }
    if Covered(onHand, payload) {
      forall l | l in lines ensures QtyIn(lines, l.product) <= OnHand(onHand, l.product) {
        var k :| 0 <= k < |lines| && lines[k] == l;
        assert payload[k] in payload;
        QtyIsDemanded(lines, catalog, l.product);
      }
    }
  }
}
