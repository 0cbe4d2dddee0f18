/** What the journal says about the business: the entries made for events add up, account
    by account, to the live documents and the shipped costs; and when manual entries and
    reversals are accepted and what they move. */
module LedgerEffects {
  import opened Common
  import opened Decimals
  import opened Sums
  import opened Ledger
  import opened Posting
  import opened Inventory
  import opened Fingerprint
  import opened Receivables
  import opened Sales
  import opened OrderSums
  import opened Credit
  import opened Kernel
  import opened Reachable
  import opened Documents
  import opened OrderEffects
  import opened ReceivableEffects

  // ---------------------------------------------------------------------------
  // What the accounts must show
  // ---------------------------------------------------------------------------

  /** What the entry moves on account `a`, if it was made for an event. */
  ghost function EventNetOf(a: Code): Entry -> int {
    (x: Entry) => if x.source.Some? then Net(x.lines, a) else 0
  }

  /** Debit minus credit on `a` over the entries made for events. */
  ghost function EventNet(entries: seq<Entry>, a: Code): int { SumOf(entries, EventNetOf(a)) }

  function LiveTotal(inv: Invoice): int { if inv.status == InvoiceVoid then 0 else inv.total }

  function LiveAmount(pay: Payment): int { if pay.status == PaymentVoid then 0 else pay.amount }

  /** The cost a recorded shipment was booked with: that of its lines, rounded once. */
  function BookedCost(e: Event): int {
    if e.kind == GoodsShipped then RoundHalfEven(SumOf(e.lines, ShippedCost)) else 0
  }

  ghost function Billed(t: Tables): int { SumBy(t.ar.invoices, LiveTotal) }

  ghost function Collected(t: Tables): int { SumBy(t.ar.payments, LiveAmount) }

  ghost function ShippedCosts(t: Tables): int { SumOf(t.outbox, BookedCost) }

  /** What account `a` must show, given what was billed, collected and shipped. */
  function Shows(a: Code, billed: int, collected: int, cost: int): int {
    if a == 1000 then collected
    else if a == 1100 then billed - collected
    else if a == 4000 then -billed
    else if a == 5000 then cost
    else if a == 1300 then -cost
    else 0
  }

  ghost predicate AccountsTie(t: Tables) {
    forall a :: EventNet(t.books.entries, a) == Shows(a, Billed(t), Collected(t), ShippedCosts(t))
  }

  // ---------------------------------------------------------------------------
  // Steps
  // ---------------------------------------------------------------------------

  lemma OneMore(entries: seq<Entry>, x: Entry, a: Code)
    ensures EventNet(entries + [x], a) == EventNet(entries, a) + EventNetOf(a)(x)
  {
    assert [x][1..] == [];
    assert SumOf([x], EventNetOf(a)) == EventNetOf(a)(x) + SumOf([], EventNetOf(a));
    SumOfConcat(entries, [x], EventNetOf(a));
  }

  /** One entry for an event, between two accounts. */
  lemma MovedTies(t: Tables, u: Tables, date: Date, source: Source, debit: Code, credit: Code, amount: int)
    requires AccountsTie(t) && Moves(t.books, u.books, date, source, debit, credit, amount)
    requires forall a ::
               Shows(a, Billed(u), Collected(u), ShippedCosts(u)) ==
               Shows(a, Billed(t), Collected(t), ShippedCosts(t))
                 + (if a == debit then amount else 0) - (if a == credit then amount else 0)
    ensures AccountsTie(u)
  {
    hide Net, Balance, Shows, EventNet;
    var x := u.books.entries[|t.books.entries|];
    assert u.books.entries == t.books.entries + [x];
    forall a ensures EventNet(u.books.entries, a) == Shows(a, Billed(u), Collected(u), ShippedCosts(u)) {
      OneMore(t.books.entries, x, a);
    }
  }

  /** No entry was made for an event, and no document or shipment came or went. */
  lemma QuietTies(t: Tables, u: Tables)
    requires AccountsTie(t)
    requires u.books.entries == t.books.entries
          || exists x: Entry :: x.source == None && u.books.entries == t.books.entries + [x]
    requires Billed(u) == Billed(t) && Collected(u) == Collected(t) && ShippedCosts(u) == ShippedCosts(t)
    ensures AccountsTie(u)
  {
    hide Shows, EventNet;
    if u.books.entries != t.books.entries {
      var x: Entry :| x.source == None && u.books.entries == t.books.entries + [x];
      forall a ensures EventNet(u.books.entries, a) == EventNet(t.books.entries, a) {
        OneMore(t.books.entries, x, a);
      }
    }
  }

  /** An outbox row that is no shipment costs nothing. */
  lemma NoCost(outbox: seq<Event>, e: Event)
    ensures SumOf(outbox + [e], BookedCost) == SumOf(outbox, BookedCost) + BookedCost(e)
  {
    assert [e][1..] == [];
    assert SumOf([e], BookedCost) == BookedCost(e) + SumOf([], BookedCost);
    SumOfConcat(outbox, [e], BookedCost);
  }

  lemma IssueTies(t: Tables, op: Op)
    requires Reached(t) && AccountsTie(t) && (op.IssueOp? || op.VoidInvoiceOp?) && Perform(t, op).Done?
    ensures AccountsTie(Perform(t, op).value)
  {
    hide Reached, Issue, Void, Moves, AccountsTie, BookedCost, RoundHalfEven;
    var u := Perform(t, op).value;
    match op {
      case IssueOp(id, order, date, due, customers) =>
        IssueWrites(t, id, order, date, due, customers);
        assert order in t.orders && id !in t.ar.invoices by { IssuesIffPossible(t, id, order, date, due, customers); }
        SumByUpdate(t.ar.invoices, LiveTotal, id, u.ar.invoices[id]);
        RowIsNoShipment(t.outbox, u.outbox[|t.outbox|]);
        MovedTies(t, u, date, Source(InvoiceIssued, id), 1100, 4000, t.orders[order].total);
      case VoidInvoiceOp(id, today) =>
        VoidWrites(t, id, today);
        assert t.ar.invoices[id].status == Unsettled by { VoidsIffPossible(t, id, today); }
        SumByUpdate(t.ar.invoices, LiveTotal, id, u.ar.invoices[id]);
        RowIsNoShipment(t.outbox, u.outbox[|t.outbox|]);
        MovedTies(t, u, today, Source(InvoiceVoided, id), 4000, 1100, t.ar.invoices[id].total);
    }
  }

  lemma RowIsNoShipment(outbox: seq<Event>, e: Event)
    requires e.kind != GoodsShipped
    ensures SumOf(outbox + [e], BookedCost) == SumOf(outbox, BookedCost)
  {
    NoCost(outbox, e);
  }

  /** Paying invoices down leaves every total and every void alone. */
  lemma WrittenKeepsTotals(x: Ar, p: Id, request: string, targets: seq<Target>, y: Ar)
    requires Written(x, p, request, targets, y) && WellFormed(targets)
    requires forall k :: k in targets ==> k.invoice in x.invoices && x.invoices[k.invoice].status != InvoiceVoid
    ensures SumBy(y.invoices, LiveTotal) == SumBy(x.invoices, LiveTotal)
    ensures SumBy(y.payments, LiveAmount) == SumBy(x.payments, LiveAmount)
  {
    forall i | i in x.invoices ensures LiveTotal(x.invoices[i]) == LiveTotal(y.invoices[i]) {
      if x.invoices[i].status == InvoiceVoid { NothingAsked(targets, i); }
    }
    SumBySame(x.invoices, y.invoices, LiveTotal, LiveTotal);
    SumByUpdate(x.payments, LiveAmount, p, y.payments[p]);
  }

  lemma VoidReceiptTies(t: Tables, id: Id, today: Date)
    requires Reached(t) && AccountsTie(t) && Perform(t, VoidPaymentOp(id, today)).Done?
    ensures AccountsTie(Perform(t, VoidPaymentOp(id, today)).value)
  {
    hide Reached, VoidReceipt, Moves, AccountsTie, BookedCost;
    var u := Perform(t, VoidPaymentOp(id, today)).value;
    VoidReceiptWrites(t, id, today);
    assert id in t.ar.payments && t.ar.payments[id].status == Received by { ReceiptVoidsIffPossible(t, id, today); }
    SumByUpdate(t.ar.payments, LiveAmount, id, u.ar.payments[id]);
    RowIsNoShipment(t.outbox, u.outbox[|t.outbox|]);
    MovedTies(t, u, today, Source(PaymentVoided, id), 1100, 1000, t.ar.payments[id].amount);
  }

  lemma ReceiveTies(t: Tables, op: Op)
    requires Reached(t) && AccountsTie(t) && op.ReceiveOp? && Perform(t, op).Done?
    ensures AccountsTie(Perform(t, op).value)
  {
    hide Reached, Receive, Moves, AccountsTie, BookedCost, Written, WellFormed, BooksCarry;
    var u := Perform(t, op).value;
    ReceiveWrites(t, op.id, op.customer, op.customers, op.reference, op.amount, op.at, op.targets);
    ReceivesIff(t, op.id, op.customer, op.customers, op.reference, op.amount, op.at, op.targets);
    var filed := t.ar.(payments := t.ar.payments[op.id := Payment(op.customer, op.reference, op.amount, 0, Received)]);
    SumByUpdate(t.ar.payments, LiveAmount, op.id, filed.payments[op.id]);
    if op.targets != [] { WrittenKeepsTotals(filed, op.id, op.reference, op.targets, u.ar); }
    RowIsNoShipment(t.outbox, u.outbox[|t.outbox|]);
    MovedTies(t, u, op.at, Source(PaymentReceived, op.id), 1000, 1100, op.amount);
  }

  lemma AllocateTies(t: Tables, p: Id, request: string, targets: seq<Target>)
    requires Reached(t) && AccountsTie(t) && Perform(t, AllocateOp(p, request, targets)).Done?
    ensures AccountsTie(Perform(t, AllocateOp(p, request, targets)).value)
  {
    hide Reached, AccountsTie, Written, WellFormed, Allocate;
    var u := Perform(t, AllocateOp(p, request, targets)).value;
    if CommandKey(p, request) in t.ar.commands {
      AllocateCases(t.ar, p, request, targets);
    } else {
      AllocateWrites(t, p, request, targets);
      AllocatesIff(t, p, request, targets);
      WrittenKeepsTotals(t.ar, p, request, targets, u.ar);
      QuietTies(t, u);
    }
  }

  lemma ShipTies(t: Tables, id: Id, catalog: Catalog, at: Date)
    requires Reached(t) && AccountsTie(t) && Perform(t, ShipOp(id, catalog, at)).Done?
    ensures AccountsTie(Perform(t, ShipOp(id, catalog, at)).value)
  {
    hide Reached, KernelOk, AccountsTie, Ship, PostEvent, ShipmentEvent, EventNet, RoundHalfEven;
    var u := Perform(t, ShipOp(id, catalog, at)).value;
    var e := ShipmentEvent(t.orders, id, catalog, at).value;
    ReachedIsOk(t);
    ShipmentFacts(t, id, catalog, at);
    NewShipmentIsCosted(t.orders, id, catalog, at);
    NoCost(t.outbox, e);
    ShipmentKind(t.orders, id, catalog, at);
    assert u.ar == t.ar && u.outbox == t.outbox + [e] && u.books == PostEvent(t.books, e).value;
    CostTies(t, u, e);
  }

  lemma ShipmentKind(orders: map<Id, Order>, id: Id, catalog: Catalog, at: Date)
    requires ShipmentEvent(orders, id, catalog, at).Done?
    ensures ShipmentEvent(orders, id, catalog, at).value.kind == GoodsShipped
  {
  }

  lemma CostTies(t: Tables, u: Tables, e: Event)
    requires AccountsTie(t) && e.kind == GoodsShipped && !HasSource(t.books.entries, KeyOf(e))
    requires PostEvent(t.books, e).Done? && u.books == PostEvent(t.books, e).value
    requires u.ar == t.ar && ShippedCosts(u) == ShippedCosts(t) + RoundHalfEven(e.exact)
    ensures AccountsTie(u)
  {
    hide PostEvent, RoundHalfEven, EventLines, Net;
    DeliveryShape(t.books, e);
    if e.exact == 0 {
      ZeroRoundsToZero();
    } else {
      var x := u.books.entries[|t.books.entries|];
      forall a
        ensures EventNet(u.books.entries, a) == Shows(a, Billed(u), Collected(u), ShippedCosts(u))
      {
        OneMore(t.books.entries, x, a);
        EventLinesFacts(POSTING_RULES[GoodsShipped], e.exact, a);
      }
    }
  }

  lemma ConfirmTies(t: Tables, op: Op)
    requires Reached(t) && AccountsTie(t) && op.ConfirmOp? && Perform(t, op).Done?
    ensures AccountsTie(Perform(t, op).value)
  {
    hide Reached, AccountsTie, Confirm, Worth, ConfirmedAs, NearestUp, BookedCost;
    var u := Perform(t, op).value;
    ConfirmFiles(t, op.id, op.catalog, op.customers, op.grace, op.at);
    RowIsNoShipment(t.outbox, u.outbox[|t.outbox|]);
    QuietTies(t, u);
  }

  lemma QuietOpsTie(t: Tables, op: Op)
    requires AccountsTie(t) && Perform(t, op).Done?
    requires op.ManualEntryOp? || op.ReverseOp? || op.OpenPeriodOp? || op.ClosePeriodOp? || op.AccountOp?
          || op.CreateOrderOp? || op.UpdateOrderOp? || op.CancelOp? || op.AdjustOp?
    ensures AccountsTie(Perform(t, op).value)
  {
    hide AccountsTie, Postable, TouchesControl, Swapped, IsReversed, Create, Update, Cancel, ApplyMove;
    QuietTies(t, Perform(t, op).value);
  }

  lemma StepTies(t: Tables, op: Op)
    requires Reached(t) && AccountsTie(t)
    ensures AccountsTie(Apply(t, op))
  {
    hide Reached, AccountsTie, Perform;
    if Perform(t, op).Done? {
      match op {
        case ConfirmOp(_, _, _, _, _) => ConfirmTies(t, op);
        case ShipOp(id, catalog, at) => ShipTies(t, id, catalog, at);
        case IssueOp(_, _, _, _, _) => IssueTies(t, op);
        case VoidInvoiceOp(_, _) => IssueTies(t, op);
        case VoidPaymentOp(id, today) => VoidReceiptTies(t, id, today);
        case ReceiveOp(_, _, _, _, _, _, _) => ReceiveTies(t, op);
        case AllocateOp(id, request, targets) => AllocateTies(t, id, request, targets);
        case RebuildStockOp => RebuildsAreIdentity(t);
        case RebuildArOp => RebuildsAreIdentity(t);
        case RedeliverOp(row) => RedeliveryIsHarmless(t, row);
        case _ => QuietOpsTie(t, op);
      }
    }
  }

  lemma {:induction false} RunTies(t: Tables, ops: seq<Op>)
    requires Reached(t) && AccountsTie(t)
    ensures AccountsTie(Run(t, ops))
    decreases |ops|
  {
    hide Reached, AccountsTie, Apply;
    if ops != [] {
      StepTies(t, ops[0]);
      ReachedStep(t, ops[0]);
      RunTies(Apply(t, ops[0]), ops[1..]);
    }
  }

  lemma EmptyTies(chart: map<Code, bool>)
    ensures Reached(Empty(chart)) && AccountsTie(Empty(chart))
  {
    assert Run(Empty(chart), []) == Empty(chart);
  }

  /** In every reachable state the entries made for events show, account by account: on
      4000 the totals of the live invoices, on 1000 the amounts of the live payments, on 1100
      the difference, the costs of all shipments, each rounded once, on 5000 and off 1300,
      and nothing on any other account. */
  lemma EventEntriesTieOut(t: Tables, a: Code)
    requires Reached(t)
    ensures EventNet(t.books.entries, 1000) == SumBy(t.ar.payments, LiveAmount)
    ensures EventNet(t.books.entries, 1100) == SumBy(t.ar.invoices, LiveTotal) - SumBy(t.ar.payments, LiveAmount)
    ensures EventNet(t.books.entries, 4000) == -SumBy(t.ar.invoices, LiveTotal)
    ensures EventNet(t.books.entries, 5000) == SumOf(t.outbox, BookedCost)
    ensures EventNet(t.books.entries, 1300) == -SumOf(t.outbox, BookedCost)
    ensures a !in {1000, 1100, 1300, 4000, 5000} ==> EventNet(t.books.entries, a) == 0
  {
    hide Run, EventNet;
    var chart: map<Code, bool>, ops: seq<Op> :| t == Run(Empty(chart), ops);
    EmptyTies(chart);
    RunTies(Empty(chart), ops);
  }

  // ---------------------------------------------------------------------------
  // Manual entries and reversals
  // ---------------------------------------------------------------------------

  ghost function NetOn(a: Code): Line -> int {
    (l: Line) => if l.account == a then l.debit - l.credit else 0
  }

  lemma {:induction false} NetIsSum(lines: seq<Line>, a: Code)
    ensures Net(lines, a) == SumOf(lines, NetOn(a))
  {
    if lines != [] {
      SumOfLast(lines, NetOn(a));
      NetIsSum(lines[..|lines| - 1], a);
    }
  }

  lemma {:induction false} SideIsSum(lines: seq<Line>, side: Line -> int)
    ensures SideTotal(lines, side) == SumOf(lines, side)
  {
    if lines != [] {
      SumOfLast(lines, side);
      SideIsSum(lines[..|lines| - 1], side);
    }
  }

  /** One line as the journal takes it: in TWD at rate one, on one side, the same amount in
      both currencies. */
  ghost predicate Proper(l: Line) {
    && l.currency == "TWD" && l.rate == 10_000_000_000
    && l.txnDebit == l.debit && l.txnCredit == l.credit
    && (l.debit > 0 || l.credit > 0) && (l.debit == 0 || l.credit == 0)
  }

  /** An account a person may post to: on the chart, no control account. */
  ghost predicate Writable(b: Books, a: Code) {
    a in b.chart && !b.chart[a] && a != 1100
  }

  /** Proper lines are worth something: with a first line one of the sides is positive, and
      both are when they balance. */
  lemma {:induction false} ProperIsPositive(lines: seq<Line>)
    requires lines != [] && forall l :: l in lines ==> Proper(l)
    ensures SumOf(lines, DebitOf) >= 0 && SumOf(lines, CreditOf) >= 0
    ensures SumOf(lines, DebitOf) + SumOf(lines, CreditOf) > 0
    decreases |lines|
  {
    assert Proper(lines[0]);
    if |lines| > 1 {
      forall l | l in lines[1..] ensures Proper(l) {}
      ProperIsPositive(lines[1..]);
    }
  }

  lemma PostableIff(lines: seq<Line>)
    requires lines != []
    ensures Postable(lines) <==>
              (forall l :: l in lines ==> Proper(l)) && SumOf(lines, DebitOf) == SumOf(lines, CreditOf)
  {
    SideIsSum(lines, DebitOf);
    SideIsSum(lines, CreditOf);
    forall l | l in lines ensures LineOk(l) <==> Proper(l) {}
    if forall l :: l in lines ==> Proper(l) { ProperIsPositive(lines); }
  }

  lemma WritableIff(b: Books, lines: seq<Line>)
    ensures AccountsOf(lines) <= b.chart.Keys && !TouchesControl(b.chart, lines) <==>
              forall l :: l in lines ==> Writable(b, l.account)
  {
    forall l | l in lines ensures l.account in AccountsOf(lines) {}
  }

  lemma UnsourcedPostsIff(b: Books, date: Date, lines: seq<Line>)
    ensures Post(b, EntryDraft(date, None, lines)).Done? <==>
              && Postable(lines) && AccountsOf(lines) <= b.chart.Keys
              && !TouchesControl(b.chart, lines) && PeriodOpen(b, date)
  {
    hide Postable, TouchesControl, AccountsOf, PeriodOpen, Append;
  }

  /** A manual entry is accepted iff it has two lines or more, every line is proper and on an
      account people may post to, debits equal credits, and the month is open. */
  lemma ManualEntryIff(t: Tables, date: Date, lines: seq<Line>)
    ensures Perform(t, ManualEntryOp(date, lines)).Done? <==>
              && |lines| >= 2
              && (forall l :: l in lines ==> Proper(l) && Writable(t.books, l.account))
              && SumOf(lines, DebitOf) == SumOf(lines, CreditOf)
              && PeriodOpen(t.books, date)
  {
    hide Post, Postable, TouchesControl, AccountsOf, Proper, Writable, PeriodOpen, SumOf;
    UnsourcedPostsIff(t.books, date, lines);
    if lines != [] {
      PostableIff(lines);
      WritableIff(t.books, lines);
    }
  }

  /** It is appended as given, and every account moves by what its lines say. */
  lemma ManualEntryMoves(t: Tables, date: Date, lines: seq<Line>, a: Code)
    requires Perform(t, ManualEntryOp(date, lines)).Done?
    ensures var after := Perform(t, ManualEntryOp(date, lines)).value;
            && after == t.(books := t.books.(entries := after.books.entries, nextNo := after.books.nextNo))
            && |after.books.entries| == |t.books.entries| + 1 && t.books.entries <= after.books.entries
            && var x := after.books.entries[|t.books.entries|];
               && x == Entry(x.number, date, None, None, lines)
               && Balance(after.books.entries, a) == Balance(t.books.entries, a) + SumOf(lines, NetOn(a))
  {
    hide Postable, TouchesControl, Net;
    NetIsSum(lines, a);
    AppendMovesBalance(t.books, date, None, None, lines, a);
  }

  /** An entry can be reversed iff it exists, is no reversal, has none yet, touches no
      control account, and today's month is open. */
  lemma ReversalIff(t: Tables, id: nat, today: Date)
    requires Reached(t)
    ensures Perform(t, ReverseOp(id, today)).Done? <==>
              && id < |t.books.entries| && t.books.entries[id].reversalOf == None
              && (forall k :: 0 <= k < |t.books.entries| ==> t.books.entries[k].reversalOf != Some(id))
              && (forall l :: l in t.books.entries[id].lines ==> Writable(t.books, l.account))
              && PeriodOpen(t.books, today)
  {
    hide Reached, Writable, PeriodOpen, TouchesControl, AccountsOf;
    if id < |t.books.entries| {
      AccountsAreKnown(t, id);
      WritableIff(t.books, t.books.entries[id].lines);
    }
  }

  lemma AccountsAreKnown(t: Tables, id: nat)
    requires Reached(t) && id < |t.books.entries|
    ensures AccountsOf(t.books.entries[id].lines) <= t.books.chart.Keys
  {
    hide StockOk, ArOk, OrdersOk, Linked, SourcesKnown, DocumentsPosted, OutboxApplied, TiesOut, Gapless, Postable;
    ReachedIsOk(t);
    assert t.books.entries[id] in t.books.entries;
  }

  /** The reversal is dated the day it is made, has every line of the original with its sides
      exchanged, and moves every account back by what the original moved it. */
  lemma ReversalMoves(t: Tables, id: nat, today: Date, a: Code)
    requires Perform(t, ReverseOp(id, today)).Done?
    ensures var after, given := Perform(t, ReverseOp(id, today)).value, t.books.entries[id].lines;
            && after == t.(books := t.books.(entries := after.books.entries, nextNo := after.books.nextNo))
            && |after.books.entries| == |t.books.entries| + 1 && t.books.entries <= after.books.entries
            && var x := after.books.entries[|t.books.entries|];
               && x == Entry(x.number, today, None, Some(id), x.lines) && |x.lines| == |given|
               && (forall k :: 0 <= k < |given| ==>
                     x.lines[k] == Line(given[k].account, given[k].currency, given[k].txnCredit, given[k].txnDebit,
                                        given[k].credit, given[k].debit, given[k].rate))
               && Balance(after.books.entries, a) == Balance(t.books.entries, a) - SumOf(given, NetOn(a))
  {
    hide TouchesControl, Net, IsReversed;
    var given := t.books.entries[id].lines;
    NetIsSum(given, a);
    SwappedNegates(given, a);
    AppendMovesBalance(t.books, today, None, Some(id), Swapped(given), a);
  }

  // ---------------------------------------------------------------------------
  // Settings
  // ---------------------------------------------------------------------------

  /** A month is opened once, closed whenever it exists, and an account can always be set. */
  lemma SettingsAre(t: Tables, month: Month, code: Code, control: bool)
    ensures Perform(t, OpenPeriodOp(month)) ==
              if month in t.books.periods then Failed(Conflict)
              else Done(t.(books := t.books.(periods := t.books.periods[month := Open])))
    ensures Perform(t, ClosePeriodOp(month)) ==
              if month !in t.books.periods then Failed(NotFound)
              else Done(t.(books := t.books.(periods := t.books.periods[month := Closed])))
    ensures Perform(t, AccountOp(code, control)) ==
              Done(t.(books := t.books.(chart := t.books.chart[code := control])))
  {
  }
}
