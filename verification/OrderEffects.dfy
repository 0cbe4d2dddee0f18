/** When each order service succeeds and exactly what it then writes, in terms of the
    order's lines, the catalogue and the limit. */
module OrderEffects {
  import opened Common
  import opened Decimals
  import opened Ledger
  import opened Posting
  import opened Inventory
  import opened Receivables
  import opened Sales
  import opened OrderSums
  import opened Credit
  import opened Kernel
  import opened Reachable

  // ---------------------------------------------------------------------------
  // Drafting
  // ---------------------------------------------------------------------------

  /** A line may be filed: positive quantity, no negative quote, a known product. */
  ghost predicate Acceptable(lines: seq<LineIn>, catalog: Catalog) {
    forall l :: l in lines ==> l.qty > 0 && (l.price.Some? ==> l.price.value >= 0) && l.product in catalog
  }

  /** `row` is what becomes of the line `l`: a quoted price binds, otherwise the list price. */
  ghost predicate FiledAs(l: LineIn, row: OrderLine, catalog: Catalog) {
    && row.product == l.product && row.qty == l.qty
    && (match l.price
        case Some(price) => row.override && row.price == price
        case None => !row.override && l.product in catalog && row.price == catalog[l.product].listPrice)
    && NearestUp(l.qty * row.price, row.amount)
  }

  /** The order `row` holds the lines asked for, and their exact worth rounded once. */
  ghost predicate FiledOrder(lines: seq<LineIn>, row: Order, catalog: Catalog) {
    && |row.lines| == |lines|
    && (forall k :: 0 <= k < |lines| ==> FiledAs(lines[k], row.lines[k], catalog))
    && NearestUp(Quote(lines, catalog), row.total)
  }

  lemma CreatesIff(t: Tables, id: Id, customer: Id, customers: Customers, lines: seq<LineIn>, catalog: Catalog)
    ensures Perform(t, CreateOrderOp(id, customer, customers, lines, catalog)).Done? <==>
              Acceptable(lines, catalog) && customer in customers && id !in t.orders
  {
    hide BuiltTotal, BuiltLines, Stored;
  }

  /** Creating files one new draft, priced line by line, and touches nothing else. */
  lemma CreateFiles(t: Tables, id: Id, customer: Id, customers: Customers, lines: seq<LineIn>, catalog: Catalog)
    requires Perform(t, CreateOrderOp(id, customer, customers, lines, catalog)).Done?
    ensures var after := Perform(t, CreateOrderOp(id, customer, customers, lines, catalog)).value;
            && id in after.orders && after == t.(orders := t.orders[id := after.orders[id]])
            && FiledOrder(lines, after.orders[id], catalog)
            && after.orders[id] == Order(id, customer, customers[customer].currency, Draft, after.orders[id].total,
                                         after.orders[id].lines, 0)
  {
    hide BuiltTotal, BuiltLines, Stored, FiledOrder;
    FiledIs(lines, Perform(t, CreateOrderOp(id, customer, customers, lines, catalog)).value.orders[id], catalog);
  }

  lemma UpdatesIff(t: Tables, id: Id, lines: Option<seq<LineIn>>, catalog: Catalog)
    ensures Perform(t, UpdateOrderOp(id, lines, catalog)).Done? <==>
              && id in t.orders && t.orders[id].status == Draft
              && (lines.Some? ==> Acceptable(lines.value, catalog))
  {
    hide BuiltTotal, BuiltLines, Stored;
  }

  /** An edit with lines replaces all of them and the total, and nothing else. */
  lemma UpdateFiles(t: Tables, id: Id, lines: Option<seq<LineIn>>, catalog: Catalog)
    requires Perform(t, UpdateOrderOp(id, lines, catalog)).Done?
    ensures var after := Perform(t, UpdateOrderOp(id, lines, catalog)).value;
            match lines
            case None => after == t
            case Some(given) =>
              var row := t.orders[id].(lines := after.orders[id].lines, total := after.orders[id].total);
              after == t.(orders := t.orders[id := row]) && FiledOrder(given, row, catalog)
  {
    hide BuiltTotal, BuiltLines, Stored, FiledOrder;
    if lines.Some? { FiledIs(lines.value, Perform(t, UpdateOrderOp(id, lines, catalog)).value.orders[id], catalog); }
  }

  lemma FiledIs(lines: seq<LineIn>, row: Order, catalog: Catalog)
    requires Acceptable(lines, catalog)
    requires row.lines == BuiltLines(lines, catalog) && row.total == Stored(BuiltTotal(lines, catalog))
    ensures FiledOrder(lines, row, catalog)
  {
    hide FiledAs;
    FiledLines(lines, catalog);
    FiledTotal(lines, catalog);
  }

  lemma FiledTotal(lines: seq<LineIn>, catalog: Catalog)
    requires Acceptable(lines, catalog)
    ensures NearestUp(Quote(lines, catalog), Stored(BuiltTotal(lines, catalog)))
  {
    hide Quote, BuiltTotal;
    QuoteIsBuilt(lines, catalog);
    BuiltIsNonNegative(lines, catalog);
    StoredIs(BuiltTotal(lines, catalog), Stored(BuiltTotal(lines, catalog)));
  }

  lemma {:induction false} FiledLines(lines: seq<LineIn>, catalog: Catalog)
    requires Acceptable(lines, catalog)
    ensures |BuiltLines(lines, catalog)| == |lines|
    ensures forall k :: 0 <= k < |lines| ==> FiledAs(lines[k], BuiltLines(lines, catalog)[k], catalog)
  {
    hide FiledAs;
    if lines != [] {
      var front, last := lines[..|lines| - 1], lines[|lines| - 1];
      forall l | l in front ensures l in lines {}
      FiledLines(front, catalog);
      assert last in lines;
      LineIsFiled(last, catalog);
    }
  }

  lemma LineIsFiled(l: LineIn, catalog: Catalog)
    requires Acceptable([l], catalog)
    ensures FiledAs(l, BuiltLine(l, catalog), catalog)
  {
    assert l in [l];
    ProductNonNegative(l.qty, PriceOf(l, catalog));
    StoredIs(l.qty * PriceOf(l, catalog), BuiltLine(l, catalog).amount);
  }

  lemma CancelsIff(t: Tables, id: Id)
    ensures Perform(t, CancelOp(id)).Done? <==>
              id in t.orders && (t.orders[id].status == Draft || t.orders[id].status == Confirmed)
    ensures Perform(t, CancelOp(id)).Done? ==>
              Perform(t, CancelOp(id)).value == t.(orders := t.orders[id := t.orders[id].(status := Cancelled)])
  {
  }

  // ---------------------------------------------------------------------------
  // Confirmation
  // ---------------------------------------------------------------------------

  /** The order can be confirmed at today's prices, credit aside. */
  ghost predicate Confirmable(t: Tables, id: Id, catalog: Catalog, customers: Customers) {
    && id in t.orders && t.orders[id].status == Draft && t.orders[id].lines != []
    && t.orders[id].customer in customers
    && (forall l :: l in t.orders[id].lines ==> l.product in catalog)
    && Worth(t.orders[id].lines, catalog) > 0
  }

  /** When a confirmation goes through: exactly for a nonempty draft of a known customer
      with known products and a positive exact worth, if the customer has no limit or the
      exact worth on top of the exposure stays within limit plus grace. */
  lemma ConfirmsIff(t: Tables, id: Id, catalog: Catalog, customers: Customers, grace: int, at: Date)
    ensures Perform(t, ConfirmOp(id, catalog, customers, grace, at)).Done? <==>
              && Confirmable(t, id, catalog, customers)
              && var c := t.orders[id].customer;
                 || customers[c].limit == 0
                 || MICRO * ExposureIn(t, c) + Worth(t.orders[id].lines, catalog)
                      <= MICRO * (customers[c].limit + grace)
  {
    hide Exposure, Worth, ExactTotal, Repriced, Stored;
    if id in t.orders && Priced(t.orders[id].lines, catalog) { WorthIsExact(t.orders[id].lines, catalog); }
  }

  /** How a confirmation is refused: an unknown order is not found, an order past drafting or
      over its customer's limit is a conflict, anything else is rejected as invalid. */
  lemma ConfirmRefusals(t: Tables, id: Id, catalog: Catalog, customers: Customers, grace: int, at: Date)
    requires Perform(t, ConfirmOp(id, catalog, customers, grace, at)).Failed?
    ensures var error := Perform(t, ConfirmOp(id, catalog, customers, grace, at)).error;
            && (error == NotFound <==> id !in t.orders)
            && (error == Conflict <==>
                  id in t.orders && (t.orders[id].status != Draft || Confirmable(t, id, catalog, customers)))
            && error in {NotFound, Conflict, Rejected}
  {
    hide Exposure, Worth, ExactTotal, Repriced, Stored;
    if id in t.orders && Priced(t.orders[id].lines, catalog) { WorthIsExact(t.orders[id].lines, catalog); }
  }

  /** An order that takes the exposure exactly to limit plus grace is confirmed; one that
      exceeds it by the smallest exact amount there is, is refused as a conflict. */
  lemma LimitIsInclusive(t: Tables, id: Id, catalog: Catalog, customers: Customers, grace: int, at: Date)
    requires Confirmable(t, id, catalog, customers) && customers[t.orders[id].customer].limit != 0
    ensures var room := customers[t.orders[id].customer].limit + grace - ExposureIn(t, t.orders[id].customer);
            && (Worth(t.orders[id].lines, catalog) == MICRO * room ==>
                  Perform(t, ConfirmOp(id, catalog, customers, grace, at)).Done?)
            && (Worth(t.orders[id].lines, catalog) == MICRO * room + 1 ==>
                  Perform(t, ConfirmOp(id, catalog, customers, grace, at)) == Failed(Conflict))
  {
    hide Exposure, Worth, ExactTotal, Repriced, Stored;
    WorthIsExact(t.orders[id].lines, catalog);
  }

  /** `y` is the line `x` once confirmed: priced by hand it stays, otherwise it takes
      today's list price and the rounded amount. */
  ghost predicate ConfirmedAs(x: OrderLine, y: OrderLine, catalog: Catalog) {
    if x.override then y == x
    else
      && x.product in catalog && y == x.(price := catalog[x.product].listPrice, amount := y.amount)
      && NearestUp(x.qty * catalog[x.product].listPrice, y.amount)
  }

  /** A confirmation reprices the order's lines, rounds their exact worth once into the
      total, records one event of the exact worth, and touches nothing else. */
  lemma ConfirmFiles(t: Tables, id: Id, catalog: Catalog, customers: Customers, grace: int, at: Date)
    requires Reached(t) && Perform(t, ConfirmOp(id, catalog, customers, grace, at)).Done?
    ensures var after := Perform(t, ConfirmOp(id, catalog, customers, grace, at)).value;
            var x, y := t.orders[id], after.orders[id];
            && after == t.(orders := t.orders[id := y],
                           outbox := t.outbox + [Event(OrderConfirmed, id, at, [], Worth(x.lines, catalog))])
            && y == x.(status := Confirmed, lines := y.lines, total := y.total)
            && |y.lines| == |x.lines|
            && (forall k :: 0 <= k < |x.lines| ==> ConfirmedAs(x.lines[k], y.lines[k], catalog))
            && NearestUp(Worth(x.lines, catalog), y.total)
  {
    hide Reached, KernelOk, Exposure, Worth, ExactTotal, Stored, ConfirmedAs, NearestUp;
    var lines := t.orders[id].lines;
    WorthIsExact(lines, catalog);
    DraftIsSound(t, id);
    StoredIsNearest(ExactTotal(lines, catalog));
    forall k | 0 <= k < |lines| ensures ConfirmedAs(lines[k], Repriced(lines, catalog)[k], catalog) {
      assert lines[k] in lines;
      LineIsConfirmed(lines[k], catalog);
    }
  }

  lemma DraftIsSound(t: Tables, id: Id)
    requires Reached(t) && id in t.orders
    ensures LinesSound(t.orders[id].lines)
  {
    hide Reached, BooksOk, StockOk, ArOk, Linked, SourcesKnown, DocumentsPosted, OutboxApplied, TiesOut, LinesSound;
    ReachedIsOk(t);
  }

  lemma StoredIsNearest(pico: int)
    requires pico >= 0
    ensures NearestUp(pico, Stored(pico))
  {
    StoredIs(pico, Stored(pico));
  }

  lemma LineIsConfirmed(l: OrderLine, catalog: Catalog)
    requires LineSound(l) && l.product in catalog
    ensures ConfirmedAs(l, RepricedLine(l, catalog), catalog)
  {
    ProductNonNegative(l.qty, catalog[l.product].listPrice);
    StoredIsNearest(l.qty * catalog[l.product].listPrice);
  }

  // ---------------------------------------------------------------------------
  // Shipment
  // ---------------------------------------------------------------------------

  /** A shipment records one event: the order's lines with today's standard costs, and the
      exact cost of all of them. */
  lemma ShipRecords(t: Tables, id: Id, catalog: Catalog, at: Date)
    requires Perform(t, ShipOp(id, catalog, at)).Done?
    ensures var after, lines := Perform(t, ShipOp(id, catalog, at)).value, t.orders[id].lines;
            && |after.outbox| == |t.outbox| + 1 && t.outbox <= after.outbox
            && var e := after.outbox[|t.outbox|];
               && e == Event(GoodsShipped, id, at, e.lines, Cost(lines, catalog))
               && |e.lines| == |lines|
               && forall k :: 0 <= k < |lines| ==>
                    && lines[k].product in catalog
                    && e.lines[k] == ShippedLine(lines[k].product, lines[k].qty, catalog[lines[k].product].standardCost)
  {
    hide Ship, PostEvent, Cost, CostTotal;
    CostIsTotal(t.orders[id].lines, catalog);
    forall k | 0 <= k < |t.orders[id].lines| ensures t.orders[id].lines[k].product in catalog {
      assert t.orders[id].lines[k] in t.orders[id].lines;
    }
  }

  /** How a shipment is refused once the order is confirmed and its products are known: lack
      of stock comes first, and then whatever the books object to. */
  lemma ShipRefusals(t: Tables, id: Id, catalog: Catalog, at: Date)
    requires Reached(t) && Perform(t, ShipOp(id, catalog, at)).Failed?
    ensures var error := Perform(t, ShipOp(id, catalog, at)).error;
            && (error == NotFound <==> id !in t.orders)
            && (error == Conflict <==> id in t.orders && t.orders[id].status != Confirmed)
            && (error == InsufficientStock <==>
                  && id in t.orders && t.orders[id].status == Confirmed
                  && (forall l :: l in t.orders[id].lines ==> l.product in catalog)
                  && !InStock(t.stock.onHand, t.orders[id].lines))
  {
    hide Reached, KernelOk, Ship, PostEvent, Payload, CostTotal, InStock, Covered, HasMoveFor;
    ReachedIsOk(t);
    if ShipmentEvent(t.orders, id, catalog, at).Done? {
      var e := ShipmentEvent(t.orders, id, catalog, at).value;
      InStockIsCovered(t.stock.onHand, t.orders[id].lines, catalog);
      ShipmentFacts(t, id, catalog, at);
      FirstDeliveryOutcome(t.stock, e.lines, KeyOf(e));
      BooksObject(t.books, e);
    }
  }

  lemma BooksObject(b: Books, e: Event)
    ensures PostEvent(b, e).Failed? ==>
              PostEvent(b, e).error in {Rejected, UnknownAccount, InvalidLines, ControlAccount, PeriodNotOpen}
  {
    hide Postable, TouchesControl, EventLines;
  }

  // ---------------------------------------------------------------------------
  // Adjustment
  // ---------------------------------------------------------------------------

  /** A stock adjustment is accepted iff it changes something and leaves no deficit; it adds
      one move without a source and touches no other product. */
  lemma AdjustsIff(t: Tables, product: Id, delta: int, p: Id)
    ensures Perform(t, AdjustOp(product, delta)).Done? <==>
              delta != 0 && OnHand(t.stock.onHand, product) + delta >= 0
    ensures Perform(t, AdjustOp(product, delta)).Done? ==>
              var after := Perform(t, AdjustOp(product, delta)).value;
              && after == t.(stock := Stock(after.stock.onHand, t.stock.moves + [Move(product, delta, None)]))
              && OnHand(after.stock.onHand, p) == OnHand(t.stock.onHand, p) + if p == product then delta else 0
  {
  }
}
