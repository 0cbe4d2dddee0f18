/** What holds in every reachable state of the kernel: the corollaries of the run
    invariant that name a business promise each. */
module Reachable {
  import opened Common
  import opened Decimals
  import opened Sums
  import opened Ledger
  import opened Posting
  import opened Inventory
  import opened Fingerprint
  import opened Receivables
  import opened Sales
  import opened OrderSums
  import opened Credit
  import opened Kernel
  import Aging

  /** `t` is the outcome of some run of services on empty tables. */
  ghost predicate Reached(t: Tables) {
    exists chart: map<Code, bool>, ops: seq<Op> :: t == Run(Empty(chart), ops)
  }

  lemma EmptyIsOk(chart: map<Code, bool>)
    ensures KernelOk(Empty(chart))
  {
  }

  lemma ReachedIsOk(t: Tables)
    requires Reached(t)
    ensures KernelOk(t)
  {
    var chart: map<Code, bool>, ops: seq<Op> :| t == Run(Empty(chart), ops);
    EmptyIsOk(chart);
    RunKeeps(Empty(chart), ops);
  }

  lemma {:induction false} RunConcat(t: Tables, x: seq<Op>, y: seq<Op>)
    ensures Run(t, x + y) == Run(Run(t, x), y)
    decreases |x|
  {
    if x == [] {
      assert x + y == y;
    } else {
      assert (x + y)[1..] == x[1..] + y;
      RunConcat(Apply(t, x[0]), x[1..], y);
    }
  }

  /** From a reached state every further call leads to a reached state. */
  lemma ReachedStep(t: Tables, op: Op)
    requires Reached(t)
    ensures Reached(Apply(t, op))
  {
    var chart: map<Code, bool>, ops: seq<Op> :| t == Run(Empty(chart), ops);
    RunConcat(Empty(chart), ops, [op]);
    assert [op][1..] == [];
    assert Run(t, [op]) == Run(Apply(t, op), []);
  }

  // ---------------------------------------------------------------------------
  // Ledger, subledger and report
  // ---------------------------------------------------------------------------

  /** Account 1100 is what customers owe, invoice by invoice and payment by payment,
      and the aging report of any date adds up to it. */
  lemma ReceivablesTieOut(t: Tables, bucketDate: int)
    requires Reached(t)
    ensures Balance(t.books.entries, RECEIVABLE) == SumBy(t.ar.invoices, OpenOf) - SumBy(t.ar.payments, UnappliedOf)
    ensures SumBy(Aging.Report(t.ar, bucketDate), Aging.NetOf) == Balance(t.books.entries, RECEIVABLE)
  {
    ReachedIsOk(t);
    Aging.GrandTotalIsSubledger(t.ar, bucketDate);
  }

  /** Every business document has exactly one entry, and every entry made for an event
      belongs to a document in the matching state. */
  lemma PostedExactlyOnce(t: Tables, s: Source)
    requires Reached(t)
    ensures s.event == InvoiceIssued ==> (HasSource(t.books.entries, s) <==> s.id in t.ar.invoices)
    ensures s.event == InvoiceVoided ==>
              (HasSource(t.books.entries, s) <==> s.id in t.ar.invoices && t.ar.invoices[s.id].status == InvoiceVoid)
    ensures s.event == PaymentReceived ==> (HasSource(t.books.entries, s) <==> s.id in t.ar.payments)
    ensures s.event == PaymentVoided ==>
              (HasSource(t.books.entries, s) <==> s.id in t.ar.payments && t.ar.payments[s.id].status == PaymentVoid)
    ensures forall i, j :: 0 <= i < j < |t.books.entries| && t.books.entries[i].source == Some(s) ==>
              t.books.entries[j].source != Some(s)
  {
    ReachedIsOk(t);
    hide ArOk, StockOk, OrdersOk, Linked, OutboxApplied, TiesOut;
  }

  /** Every maintained balance is the sum of its allocation rows, stays within its
      document, and an invoice's status is what its settled amount dictates. */
  lemma BalancesMatchRows(t: Tables, i: Id, p: Id)
    requires Reached(t)
    ensures i in t.ar.invoices ==>
              var inv := t.ar.invoices[i];
              && inv.settled == SettledBy(t.ar.allocations, i) && 0 <= inv.settled <= inv.total
              && inv.total > 0
              && (inv.status == Paid <==> inv.settled == inv.total)
              && (inv.status == Partial <==> 0 < inv.settled < inv.total)
              && (inv.status == Unsettled || inv.status == InvoiceVoid <==> inv.settled == 0)
    ensures p in t.ar.payments ==>
              var pay := t.ar.payments[p];
              && pay.drawn == DrawnFrom(t.ar.allocations, p) && 0 <= pay.drawn <= pay.amount
              && pay.amount > 0
              && (pay.drawn > 0 ==> pay.status == Received && VoidPayment(t.ar, p).Failed?)
  {
    hide Reached, KernelOk, SettledBy, DrawnFrom;
    ReachedIsOk(t);
    KernelHasRows(t, i, p);
  }

  lemma KernelHasRows(t: Tables, i: Id, p: Id)
    requires KernelOk(t)
    ensures i in t.ar.invoices ==> InvoiceOk(t.ar.invoices[i], SettledBy(t.ar.allocations, i))
    ensures p in t.ar.payments ==> PaymentOk(t.ar.payments[p], DrawnFrom(t.ar.allocations, p))
  {
    hide BooksOk, StockOk, OrdersOk, Linked, SourcesKnown, DocumentsPosted, OutboxApplied, TiesOut;
    hide InvoiceOk, PaymentOk;
  }

  /** The books of every reachable state: numbers without gaps or repeats in every year,
      and a trial balance whose debits equal its credits, for every filter. */
  lemma BooksBalance(t: Tables, year: int, period: Option<Month>)
    requires Reached(t)
    ensures Numbers(t.books.entries, year) == CountingTo(NextNo(t.books.nextNo, year))
    ensures SumBy(TrialBalance(t.books, period), RowDebit) == SumBy(TrialBalance(t.books, period), RowCredit)
  {
    ReachedIsOk(t);
    TrialBalanceBalances(t.books, period);
  }

  /** Stock on hand is the sum of the moves, per product, and never negative; a shipment
      moved each product at most once. */
  lemma StockTiesOut(t: Tables, p: Id)
    requires Reached(t)
    ensures OnHand(t.stock.onHand, p) == Moved(t.stock.moves, p) >= 0
    ensures forall i, j :: 0 <= i < j < |t.stock.moves| && t.stock.moves[i].source.Some? ==>
              t.stock.moves[i].product != t.stock.moves[j].product || t.stock.moves[i].source != t.stock.moves[j].source
  {
    ReachedIsOk(t);
  }

  /** Whether the books accept the cost of a shipment dated `at`. */
  predicate CanPostCost(b: Books, exact: int, at: Date) {
    exact == 0 || (2 * exact > MICRO && {COGS, INVENTORY} <= b.chart.Keys && PeriodOpen(b, at))
  }

  /** In a reachable state an order ships iff it is confirmed, every product is known and
      on hand in the quantity all lines need of it, and the exact cost of the lines is zero
      or can be posted: above half a stored unit, with both accounts on the chart and the
      period open. */
  lemma ShipsIffPossible(t: Tables, id: Id, catalog: Catalog, at: Date)
    requires Reached(t)
    ensures Perform(t, ShipOp(id, catalog, at)).Done? <==>
              && id in t.orders && t.orders[id].status == Confirmed
              && (forall l :: l in t.orders[id].lines ==> l.product in catalog)
              && InStock(t.stock.onHand, t.orders[id].lines)
              && CanPostCost(t.books, Cost(t.orders[id].lines, catalog), at)
  {
    hide KernelOk, Ship, PostEvent, Reached, CanPostCost, Payload, CostTotal, Cost, InStock, Covered, HasMoveFor;
    ReachedIsOk(t);
    if ShipmentEvent(t.orders, id, catalog, at).Done? {
      var e, lines := ShipmentEvent(t.orders, id, catalog, at).value, t.orders[id].lines;
      CostIsTotal(lines, catalog);
      InStockIsCovered(t.stock.onHand, lines, catalog);
      ShipmentFacts(t, id, catalog, at);
      FirstDeliveryOutcome(t.stock, e.lines, KeyOf(e));
      CostPosts(t.books, e);
    }
  }

  lemma ShipmentFacts(t: Tables, id: Id, catalog: Catalog, at: Date)
    requires KernelOk(t) && ShipmentEvent(t.orders, id, catalog, at).Done?
    ensures var e := ShipmentEvent(t.orders, id, catalog, at).value;
            && KeyOf(e) == Source(GoodsShipped, id) && e.exact >= 0
            && !HasSource(t.books.entries, KeyOf(e)) && !HasMoveFor(t.stock.moves, KeyOf(e))
            && forall l :: l in e.lines ==> l.qty > 0
  {
    hide BooksOk, StockOk, ArOk, Linked, DocumentsPosted, OutboxApplied, TiesOut;
    ShipmentIsNew(t, id, catalog, at);
    CostIsNonNegative(t.orders[id].lines, catalog);
  }

  lemma {:induction false} CostIsNonNegative(lines: seq<OrderLine>, catalog: Catalog)
    requires LinesSound(lines) && Priced(lines, catalog)
    ensures CostTotal(lines, catalog) >= 0
  {
    if lines != [] {
      var front, last := lines[..|lines| - 1], lines[|lines| - 1];
      assert last in lines;
      forall l | l in front ensures l in lines {}
      CostIsNonNegative(front, catalog);
      ProductNonNegative(last.qty, catalog[last.product].standardCost);
    }
  }

  lemma CostPosts(b: Books, e: Event)
    requires e.kind == GoodsShipped && e.exact >= 0 && !HasSource(b.entries, KeyOf(e))
    ensures PostEvent(b, e).Done? <==> CanPostCost(b, e.exact, e.date)
  {
    if {COGS, INVENTORY} <= b.chart.Keys && PeriodOpen(b, e.date) { CostPostingTrichotomy(b, e); }
  }

  /** Whether the books take an entry of the event's rule on that day. */
  predicate BooksTake(b: Books, kind: EventType, at: Date)
    requires kind in POSTING_RULES
  {
    {POSTING_RULES[kind].debit, POSTING_RULES[kind].credit} <= b.chart.Keys && PeriodOpen(b, at)
  }

  predicate BooksCarry(b: Books, accounts: set<Code>, at: Date) {
    accounts <= b.chart.Keys && PeriodOpen(b, at)
  }

  /** The first publication of a document's event fails only on the chart or the period. */
  lemma DocumentPosts(t: Tables, e: Event, amount: int)
    requires e.kind in POSTING_RULES && e.kind != GoodsShipped && e.kind != OrderConfirmed
    requires amount > 0 && e.exact == MICRO * amount && !HasSource(t.books.entries, KeyOf(e))
    ensures Publish(t, e).Done? <==> BooksTake(t.books, e.kind, e.date)
  {
    GridPointsAreFixed(amount);
    EventLinesFacts(POSTING_RULES[e.kind], e.exact, 0);
  }

  /** In a reachable state an order can be invoiced iff it is shipped, has no live invoice,
      the dates are in order, and the books take revenue on the invoice date. */
  lemma IssuesIffPossible(t: Tables, id: Id, order: Id, date: Date, due: Option<int>, customers: Customers)
    requires Reached(t)
    ensures Perform(t, IssueOp(id, order, date, due, customers)).Done? <==>
              && id !in t.ar.invoices
              && order in t.orders && t.orders[order].status == Shipped && t.orders[order].total > 0
              && t.orders[order].currency == "TWD"
              && t.orders[order].customer in customers && customers[t.orders[order].customer].currency == "TWD"
              && !HasLiveInvoice(t.ar.invoices, order)
              && t.orders[order].shippedDay <= date.day && (due.Some? ==> date.day <= due.value)
              && BooksCarry(t.books, {1100, 4000}, date)
  {
    hide KernelOk, Dispatch, HasLiveInvoice, Reached;
    if id !in t.ar.invoices && order in t.orders && t.orders[order].total > 0
       && Billable(customers, t.orders[order].customer) {
      var o := t.orders[order];
      FreshInReached(t, Source(InvoiceIssued, id));
      var dueDay := DueDay(due, date, customers[o.customer]);
      var ar := t.ar.(invoices := t.ar.invoices[id := Invoice(order, o.customer, dueDay, o.total, 0, Unsettled)]);
      DocumentPosts(t.(ar := ar), IssuedEvent(id, date, o.total), o.total);
    }
  }

  /** A live invoice can be voided iff nothing was settled and the books take the entry
      today. */
  lemma VoidsIffPossible(t: Tables, id: Id, today: Date)
    requires Reached(t)
    ensures Perform(t, VoidInvoiceOp(id, today)).Done? <==>
              && id in t.ar.invoices && t.ar.invoices[id].status == Unsettled
              && BooksCarry(t.books, {1100, 4000}, today)
  {
    hide KernelOk, Dispatch, Reached;
    BalancesMatchRows(t, id, id);
    if VoidInvoice(t.ar, id).Done? {
      var inv := t.ar.invoices[id];
      FreshInReached(t, Source(InvoiceVoided, id));
      DocumentPosts(t.(ar := VoidInvoice(t.ar, id).value),
                    Event(InvoiceVoided, id, today, [], MICRO * inv.total), inv.total);
    }
  }

  /** A receipt can be voided iff nothing was allocated and the books take the entry. */
  lemma ReceiptVoidsIffPossible(t: Tables, id: Id, today: Date)
    requires Reached(t)
    ensures Perform(t, VoidPaymentOp(id, today)).Done? <==>
              && id in t.ar.payments && t.ar.payments[id].status == Received && t.ar.payments[id].drawn == 0
              && BooksCarry(t.books, {1000, 1100}, today)
  {
    hide KernelOk, Dispatch, Reached;
    BalancesMatchRows(t, id, id);
    if VoidPayment(t.ar, id).Done? {
      var pay := t.ar.payments[id];
      FreshInReached(t, Source(PaymentVoided, id));
      DocumentPosts(t.(ar := VoidPayment(t.ar, id).value),
                    Event(PaymentVoided, id, today, [], MICRO * pay.amount), pay.amount);
    }
  }

  lemma FreshInReached(t: Tables, s: Source)
    requires Reached(t) && !SourceKnown(s, t.ar, t.orders)
    ensures !HasSource(t.books.entries, s)
  {
    ReachedIsOk(t);
    FreshSource(t, s);
  }

  /** A shipment takes from stock, of each product, the quantity over all its lines, moves
      the cost of its lines, rounded once, from inventory to cost of goods sold, and touches
      no other account or product. */
  lemma ShippingMovesAndPosts(t: Tables, id: Id, catalog: Catalog, at: Date, p: Id, a: Code)
    requires Reached(t) && Perform(t, ShipOp(id, catalog, at)).Done?
    ensures var after := Perform(t, ShipOp(id, catalog, at)).value;
            var lines := t.orders[id].lines;
            var cost := RoundHalfEven(Cost(lines, catalog));
            && after.orders == t.orders[id := t.orders[id].(status := Shipped, shippedDay := at.day)]
            && after.ar == t.ar
            && OnHand(after.stock.onHand, p) == OnHand(t.stock.onHand, p) - QtyIn(lines, p)
            && Balance(after.books.entries, a) == Balance(t.books.entries, a)
                 + (if a == 5000 then cost else if a == 1300 then -cost else 0)
  {
    hide KernelOk, Ship, PostEvent, RoundHalfEven, Reached, Demand, CostTotal, Payload, Cost, QtyIn, HasMoveFor;
    ReachedIsOk(t);
    var e, lines := ShipmentEvent(t.orders, id, catalog, at).value, t.orders[id].lines;
    CostIsTotal(lines, catalog);
    QtyIsDemanded(lines, catalog, p);
    ShipmentFacts(t, id, catalog, at);
    FirstDelivery(t.stock, e.lines, KeyOf(e));
    CostMoves(t.books, e, a);
  }

  lemma CostMoves(b: Books, e: Event, a: Code)
    requires e.kind == GoodsShipped && !HasSource(b.entries, KeyOf(e)) && PostEvent(b, e).Done?
    ensures var cost := RoundHalfEven(e.exact);
            Balance(PostEvent(b, e).value.entries, a) == Balance(b.entries, a)
              + (if a == COGS then cost else if a == INVENTORY then -cost else 0)
  {
    hide PostEvent, RoundHalfEven, Append, EventLines;
    DeliveryShape(b, e);
    if e.exact == 0 { ZeroRoundsToZero(); }
  }

  lemma ZeroRoundsToZero()
    ensures RoundHalfEven(0) == 0
  {
  }

  /** Redelivering any recorded event to a reachable state changes nothing, whether the
      handlers skip it or abort. */
  lemma RedeliveryIsHarmless(t: Tables, row: nat)
    requires Reached(t)
    ensures Apply(t, RedeliverOp(row)) == t
  {
    hide KernelOk, Reached, Perform;
    ReachedIsOk(t);
    RedeliveryLeaves(t, row);
  }

  lemma RedeliveryLeaves(t: Tables, row: nat)
    requires KernelOk(t)
    ensures Apply(t, RedeliverOp(row)) == t
  {
    hide KernelOk, Dispatch, Applied;
    if row < |t.outbox| {
      RecordedIsApplied(t, row);
      RedeliveryChangesNothing(t, t.outbox[row]);
    }
  }

  /** Whether a recorded event, delivered again, is skipped. */
  ghost predicate SkippedAgain(t: Tables, e: Event) {
    e.kind == OrderConfirmed ||
    (&& (e.kind == GoodsShipped && e.lines != [] ==>
           Demand(e.lines, FirstProduct(e.lines)) <= OnHand(t.stock.onHand, FirstProduct(e.lines)))
     && (e.exact == 0 || (e.kind in POSTING_RULES && BooksTake(t.books, e.kind, e.date))))
  }

  /** In a reachable state a redelivery returns normally iff the shipment's first product is
      still on hand in the shipped quantity and the books would still take its entry;
      otherwise it aborts. */
  lemma RedeliversIff(t: Tables, row: nat)
    requires Reached(t) && row < |t.outbox|
    ensures Perform(t, RedeliverOp(row)).Done? <==> SkippedAgain(t, t.outbox[row])
  {
    hide KernelOk, Reached, Ship, PostEvent, BooksTake;
    ReachedIsOk(t);
    RecordedIsApplied(t, row);
    AppliedSkipsIff(t, t.outbox[row]);
  }

  lemma AppliedSkipsIff(t: Tables, e: Event)
    requires Applied(t.stock, t.books, e)
    ensures Dispatch(t, e).Done? <==> SkippedAgain(t, e)
  {
    hide Ship, PostEvent, FirstProduct, HasMove, HasSource, RoundHalfEven;
    if e.kind != OrderConfirmed {
      if e.kind == GoodsShipped {
        if e.lines != [] {
          FullRedeliverySkipsIff(t.stock, e.lines, KeyOf(e));
        } else {
          NothingToShip(t.stock, KeyOf(e));
        }
      }
      if e.exact != 0 {
        RuleExists(e.kind);
        DuplicateSkipsIff(t.books, e);
        RedeliveryPostsNothing(t.books, e);
      } else {
        RuleExists(e.kind);
        NothingToPost(t.books, e);
      }
    }
  }

  lemma NothingToShip(st: Stock, s: Source)
    ensures Ship(st, [], s) == Done(st)
  {
  }

  lemma NothingToPost(b: Books, e: Event)
    requires e.kind in POSTING_RULES && e.exact == 0
    ensures PostEvent(b, e) == Done(b)
  {
  }

  lemma RuleExists(kind: EventType)
    requires kind != OrderConfirmed
    ensures kind in POSTING_RULES
  {
  }

  lemma RebuildsAreIdentity(t: Tables)
    requires Reached(t)
    ensures Apply(t, RebuildStockOp) == t && Apply(t, RebuildArOp) == t
  {
    ReachedIsOk(t);
    RebuildsChangeNothing(t);
  }

  // ---------------------------------------------------------------------------
  // Allocation commands over whole runs
  // ---------------------------------------------------------------------------

  ghost predicate KeepsCommands(x: Ar, y: Ar) {
    forall k :: k in x.commands ==> k in y.commands && y.commands[k] == x.commands[k]
  }

  lemma DispatchFrame(t: Tables, e: Event)
    requires Dispatch(t, e).Done?
    ensures Dispatch(t, e).value.ar == t.ar && Dispatch(t, e).value.orders == t.orders
  {
  }

  lemma AllocateFrame(t: Tables, p: Id, request: string, targets: seq<Target>)
    requires AllocateTo(t, p, request, targets).Done?
    ensures KeepsCommands(t.ar, AllocateTo(t, p, request, targets).value.ar)
    ensures CommandKey(p, request) in AllocateTo(t, p, request, targets).value.ar.commands
    ensures AllocateTo(t, p, request, targets).value.ar.commands[CommandKey(p, request)] == FingerprintText(targets)
    ensures Parsed(targets) && |TargetIds(targets)| == |targets|
  {
    AllocateCases(t.ar, p, request, targets);
  }

  lemma ReceiveFrame(t: Tables, id: Id, customer: Id, customers: Customers, reference: string, amount: int, at: Date,
                     targets: seq<Target>)
    requires Receive(t, id, customer, customers, reference, amount, at, targets).Done?
    ensures var after := Receive(t, id, customer, customers, reference, amount, at, targets).value;
            && KeepsCommands(t.ar, after.ar)
            && (targets != [] ==>
                  && Parsed(targets) && |TargetIds(targets)| == |targets|
                  && CommandKey(id, reference) in after.ar.commands
                  && after.ar.commands[CommandKey(id, reference)] == FingerprintText(targets))
  {
    hide Dispatch, AllocateTo;
    var ar := AddPayment(t.ar, id, customer, reference, amount).value;
    var e := Event(PaymentReceived, id, at, [], MICRO * amount);
    DispatchFrame(t.(ar := ar, outbox := t.outbox + [e]), e);
    if targets != [] { AllocateFrame(Publish(t.(ar := ar), e).value, id, reference, targets); }
  }

  /** No service forgets or rewrites a recorded command. */
  lemma CommandsSurvive(t: Tables, op: Op)
    ensures KeepsCommands(t.ar, Apply(t, op).ar)
  {
    hide Dispatch, Receive, AllocateTo, Exposure;
    if Perform(t, op).Done? {
      match op {
        case ReceiveOp(id, customer, customers, reference, amount, at, targets) =>
          ReceiveFrame(t, id, customer, customers, reference, amount, at, targets);
        case AllocateOp(id, request, targets) => AllocateFrame(t, id, request, targets);
        case ConfirmOp(id, catalog, customers, grace, at) =>
          var e := Event(OrderConfirmed, id, at, [], PriceForConfirm(t.orders, id, customers.Keys, catalog).value);
          DispatchFrame(t.(orders := MarkConfirmed(t.orders, id, catalog), outbox := t.outbox + [e]), e);
        case ShipOp(id, catalog, at) =>
          var e := ShipmentEvent(t.orders, id, catalog, at).value;
          DispatchFrame(t.(outbox := t.outbox + [e]), e);
        case IssueOp(id, order, date, due, customers) =>
          var o := t.orders[order];
          var dueDay := DueDay(due, date, customers[o.customer]);
          var ar := AddInvoice(t.ar, id, order, o.customer, dueDay, o.total).value;
          var e := IssuedEvent(id, date, o.total);
          DispatchFrame(t.(ar := ar, outbox := t.outbox + [e]), e);
        case VoidInvoiceOp(id, today) =>
          var e := Event(InvoiceVoided, id, today, [], MICRO * t.ar.invoices[id].total);
          DispatchFrame(t.(ar := VoidInvoice(t.ar, id).value, outbox := t.outbox + [e]), e);
        case VoidPaymentOp(id, today) =>
          var e := Event(PaymentVoided, id, today, [], MICRO * t.ar.payments[id].amount);
          DispatchFrame(t.(ar := VoidPayment(t.ar, id).value, outbox := t.outbox + [e]), e);
        case RedeliverOp(row) => DispatchFrame(t, t.outbox[row]);
        case _ =>
      }
    }
  }

  lemma {:induction false} RunKeepsCommands(t: Tables, ops: seq<Op>)
    ensures KeepsCommands(t.ar, Run(t, ops).ar)
    decreases |ops|
  {
    if ops != [] {
      CommandsSurvive(t, ops[0]);
      RunKeepsCommands(Apply(t, ops[0]), ops[1..]);
    }
  }

  /** A committed allocation command, resubmitted in any later state with its lines in
      any order, succeeds and changes nothing; any other body under the same reference
      is refused. The retry stays valid because the payment can never be voided. */
  lemma RetryInAnyLaterState(t: Tables, p: Id, request: string, lines: seq<Target>, ops: seq<Op>, body: seq<Target>)
    requires KernelOk(t) && Perform(t, AllocateOp(p, request, lines)).Done?
    ensures var later := Run(Apply(t, AllocateOp(p, request, lines)), ops);
            if multiset(body) == multiset(lines) then Perform(later, AllocateOp(p, request, body)) == Done(later)
            else Perform(later, AllocateOp(p, request, body)).Failed?
  {
    hide Allocate, KernelOk, FingerprintText, Run;
    var first := Apply(t, AllocateOp(p, request, lines));
    AllocateFrame(t, p, request, lines);
    ApplyKeeps(t, AllocateOp(p, request, lines));
    RetryLater(first, p, request, lines, ops, body);
  }

  /** The same for the command an inline allocation of a receipt records. */
  lemma InlineRetryInAnyLaterState(t: Tables, p: Id, customer: Id, customers: Customers, reference: string, amount: int,
                                   at: Date, lines: seq<Target>, ops: seq<Op>, body: seq<Target>)
    requires KernelOk(t) && lines != []
    requires Perform(t, ReceiveOp(p, customer, customers, reference, amount, at, lines)).Done?
    ensures var later := Run(Apply(t, ReceiveOp(p, customer, customers, reference, amount, at, lines)), ops);
            if multiset(body) == multiset(lines) then Perform(later, AllocateOp(p, reference, body)) == Done(later)
            else Perform(later, AllocateOp(p, reference, body)).Failed?
  {
    hide Allocate, KernelOk, FingerprintText, Run, Receive;
    var first := Apply(t, ReceiveOp(p, customer, customers, reference, amount, at, lines));
    ReceiveFrame(t, p, customer, customers, reference, amount, at, lines);
    ApplyKeeps(t, ReceiveOp(p, customer, customers, reference, amount, at, lines));
    RetryLater(first, p, reference, lines, ops, body);
  }

  lemma RetryLater(first: Tables, p: Id, request: string, lines: seq<Target>, ops: seq<Op>, body: seq<Target>)
    requires KernelOk(first) && Parsed(lines) && |TargetIds(lines)| == |lines|
    requires CommandKey(p, request) in first.ar.commands
    requires first.ar.commands[CommandKey(p, request)] == FingerprintText(lines)
    ensures var later := Run(first, ops);
            if multiset(body) == multiset(lines) then Perform(later, AllocateOp(p, request, body)) == Done(later)
            else Perform(later, AllocateOp(p, request, body)).Failed?
  {
    hide Allocate, FingerprintText, Run, ArOk, BooksOk, StockOk, OrdersOk, Linked, SourcesKnown, DocumentsPosted,
        OutboxApplied, TiesOut;
    RunKeepsCommands(first, ops);
    RunKeeps(first, ops);
    RetryIsExact(Run(first, ops).ar, p, request, lines, body);
  }

  // ---------------------------------------------------------------------------
  // Exposure over whole runs
  // ---------------------------------------------------------------------------

  lemma KernelIsCreditOk(t: Tables)
    requires KernelOk(t)
    ensures CreditTablesOk(t.orders, t.ar.invoices)
  {
    hide BooksOk, StockOk, SourcesKnown, DocumentsPosted, OutboxApplied, TiesOut;
    forall i | i in t.ar.invoices ensures 0 <= t.ar.invoices[i].settled <= t.ar.invoices[i].total {
      assert InvoiceOk(t.ar.invoices[i], SettledBy(t.ar.allocations, i));
    }
  }

  ghost function ExposureIn(t: Tables, c: Id): int {
    Exposure(t.orders, t.ar.invoices, c)
  }

  lemma AllocateLowersExposure(t: Tables, p: Id, request: string, targets: seq<Target>, c: Id)
    requires AllocateTo(t, p, request, targets).Done?
    ensures ExposureIn(AllocateTo(t, p, request, targets).value, c) <= ExposureIn(t, c)
  {
    AllocateCases(t.ar, p, request, targets);
    if CommandKey(p, request) !in t.ar.commands {
      SettleLowersExposure(t.orders, t.ar.invoices, targets, c);
    }
  }

  lemma ReceiveLowersExposure(t: Tables, id: Id, customer: Id, customers: Customers, reference: string, amount: int,
                              at: Date, targets: seq<Target>, c: Id)
    requires Receive(t, id, customer, customers, reference, amount, at, targets).Done?
    ensures ExposureIn(Receive(t, id, customer, customers, reference, amount, at, targets).value, c) <= ExposureIn(t, c)
  {
    hide Dispatch, AllocateTo, Exposure;
    var ar := AddPayment(t.ar, id, customer, reference, amount).value;
    var e := Event(PaymentReceived, id, at, [], MICRO * amount);
    DispatchFrame(t.(ar := ar, outbox := t.outbox + [e]), e);
    if targets != [] { AllocateLowersExposure(Publish(t.(ar := ar), e).value, id, reference, targets, c); }
  }

  lemma ShipmentKeepsExposure(t: Tables, id: Id, catalog: Catalog, at: Date, c: Id)
    requires KernelOk(t) && ShipOrder(t, id, catalog, at).Done?
    ensures ExposureIn(ShipOrder(t, id, catalog, at).value, c) == ExposureIn(t, c)
  {
    hide Dispatch, Exposure, BooksOk, StockOk, ArOk, Linked, SourcesKnown, DocumentsPosted, OutboxApplied, TiesOut;
    var e := ShipmentEvent(t.orders, id, catalog, at).value;
    DispatchFrame(t.(outbox := t.outbox + [e]), e);
    ShipKeepsExposure(t.orders, t.ar.invoices, id, MarkShipped(t.orders, id, at)[id], c);
  }

  /** Issuing and voiding an invoice move an amount between the two parts of exposure. */
  lemma InvoicingKeepsExposure(t: Tables, op: Op, c: Id)
    requires KernelOk(t) && (op.IssueOp? || op.VoidInvoiceOp?) && Perform(t, op).Done?
    ensures ExposureIn(Perform(t, op).value, c) == ExposureIn(t, c)
  {
    hide Dispatch, Exposure, KernelOk, Linked, Bounded;
    KernelIsCreditOk(t);
    match op {
      case IssueOp(id, order, date, due, customers) =>
        var o := t.orders[order];
        var dueDay := DueDay(due, date, customers[o.customer]);
        var ar := AddInvoice(t.ar, id, order, o.customer, dueDay, o.total).value;
        var e := IssuedEvent(id, date, o.total);
        DispatchFrame(t.(ar := ar, outbox := t.outbox + [e]), e);
        IssueKeepsExposure(t.orders, t.ar.invoices, id, ar.invoices[id], c);
      case VoidInvoiceOp(id, today) =>
        var e := Event(InvoiceVoided, id, today, [], MICRO * t.ar.invoices[id].total);
        DispatchFrame(t.(ar := VoidInvoice(t.ar, id).value, outbox := t.outbox + [e]), e);
        VoidKeepsExposure(t.orders, t.ar.invoices, id, c);
    }
  }

  lemma OrderEditsNeverRaise(t: Tables, op: Op, c: Id)
    requires KernelOk(t) && (op.CreateOrderOp? || op.UpdateOrderOp? || op.CancelOp?) && Perform(t, op).Done?
    ensures ExposureIn(Perform(t, op).value, c) <= ExposureIn(t, c)
  {
    hide Exposure, KernelOk, Linked, Bounded, OneLiveInvoice;
    KernelIsCreditOk(t);
    InertOrderWrite(t.orders, t.ar.invoices, op.id, Perform(t, op).value.orders[op.id], c);
  }

  lemma VoidReceiptFrame(t: Tables, id: Id, today: Date)
    requires VoidReceipt(t, id, today).Done?
    ensures VoidReceipt(t, id, today).value.orders == t.orders
    ensures VoidReceipt(t, id, today).value.ar.invoices == t.ar.invoices
  {
    hide Dispatch;
    var e := Event(PaymentVoided, id, today, [], MICRO * t.ar.payments[id].amount);
    DispatchFrame(t.(ar := VoidPayment(t.ar, id).value, outbox := t.outbox + [e]), e);
  }

  /** Only a confirmation can raise a customer's exposure. */
  lemma OnlyConfirmRaises(t: Tables, op: Op, c: Id)
    requires KernelOk(t) && !op.ConfirmOp?
    ensures ExposureIn(Apply(t, op), c) <= ExposureIn(t, c)
  {
    hide Exposure, KernelOk, Dispatch, AllocateTo, Receive, ShipOrder, Issue, Void, VoidReceipt, Create, Update, Cancel;
    if Perform(t, op).Done? {
      match op {
        case CreateOrderOp(_, _, _, _, _) => OrderEditsNeverRaise(t, op, c);
        case UpdateOrderOp(_, _, _) => OrderEditsNeverRaise(t, op, c);
        case CancelOp(_) => OrderEditsNeverRaise(t, op, c);
        case ShipOp(id, catalog, at) => ShipmentKeepsExposure(t, id, catalog, at, c);
        case IssueOp(_, _, _, _, _) => InvoicingKeepsExposure(t, op, c);
        case VoidInvoiceOp(_, _) => InvoicingKeepsExposure(t, op, c);
        case ReceiveOp(id, customer, customers, reference, amount, at, targets) =>
          ReceiveLowersExposure(t, id, customer, customers, reference, amount, at, targets, c);
        case VoidPaymentOp(id, today) => VoidReceiptFrame(t, id, today);
        case AllocateOp(id, request, targets) => AllocateLowersExposure(t, id, request, targets, c);
        case RebuildArOp => RebuildsChangeNothing(t);
        case RedeliverOp(row) => DispatchFrame(t, t.outbox[row]);
        case _ =>
      }
    }
  }

  /** A checked confirmation leaves its customer within limit plus grace, and nobody
      else's exposure changes. */
  lemma ConfirmStaysWithin(t: Tables, id: Id, catalog: Catalog, customers: Customers, grace: int, at: Date, c: Id)
    requires KernelOk(t) && Confirm(t, id, catalog, customers, grace, at).Done?
    ensures var after := Confirm(t, id, catalog, customers, grace, at).value;
            && (c != t.orders[id].customer ==> ExposureIn(after, c) == ExposureIn(t, c))
            && (c == t.orders[id].customer && c in customers && customers[c].limit != 0 ==>
                  ExposureIn(after, c) <= customers[c].limit + grace)
  {
    hide Exposure, KernelOk, Linked, Bounded, OneLiveInvoice, Dispatch;
    KernelIsCreditOk(t);
    var exact := PriceForConfirm(t.orders, id, customers.Keys, catalog).value;
    var e := Event(OrderConfirmed, id, at, [], exact);
    var orders := MarkConfirmed(t.orders, id, catalog);
    DispatchFrame(t.(orders := orders, outbox := t.outbox + [e]), e);
    DraftIsFiled(t, id);
    ConfirmRaises(t.orders, t.ar.invoices, id, orders[id], c);
    if c == t.orders[id].customer && customers[c].limit != 0 {
      CheckedTotalFits(customers[c].limit, grace, ExposureIn(t, c), exact);
    }
  }

  lemma DraftIsFiled(t: Tables, id: Id)
    requires KernelOk(t) && id in t.orders
    ensures t.orders[id].id == id
  {
    hide BooksOk, StockOk, ArOk, Linked, SourcesKnown, DocumentsPosted, OutboxApplied, TiesOut;
  }

  /** Along the run every confirmation for `c` is checked, against at most `bound`. */
  ghost predicate CheckedWithin(t: Tables, ops: seq<Op>, c: Id, bound: int)
    decreases |ops|
  {
    ops == [] ||
    (&& (ops[0].ConfirmOp? && ops[0].id in t.orders && t.orders[ops[0].id].customer == c ==>
           c in ops[0].customers ==>
             ops[0].customers[c].limit != 0 && ops[0].customers[c].limit + ops[0].grace <= bound)
     && CheckedWithin(Apply(t, ops[0]), ops[1..], c, bound))
  }

  /** Over any run that checks the customer's confirmations, exposure stays within the
      largest limit plus grace that was in force. */
  lemma {:induction false} ExposureStaysWithin(t: Tables, ops: seq<Op>, c: Id, bound: int)
    requires KernelOk(t) && ExposureIn(t, c) <= bound && CheckedWithin(t, ops, c, bound)
    ensures ExposureIn(Run(t, ops), c) <= bound
    decreases |ops|
  {
    hide Exposure, KernelOk, Dispatch;
    if ops != [] {
      var op := ops[0];
      ApplyKeeps(t, op);
      if !op.ConfirmOp? {
        OnlyConfirmRaises(t, op, c);
      } else if Perform(t, op).Done? {
        ConfirmStaysWithin(t, op.id, op.catalog, op.customers, op.grace, op.at, c);
      }
      ExposureStaysWithin(Apply(t, op), ops[1..], c, bound);
    }
  }
}
