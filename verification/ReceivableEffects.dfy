/** When invoices, receipts and allocations are accepted and exactly what they then write,
    in terms of open amounts, unapplied credit and the rows of the request. */
module ReceivableEffects {
  import opened Common
  import opened Decimals
  import opened Sums
  import opened Ledger
  import opened Posting
  import opened Fingerprint
  import opened Receivables
  import opened Sales
  import opened Inventory
  import opened Credit
  import opened Kernel
  import opened Reachable
  import opened OrderEffects

  // ---------------------------------------------------------------------------
  // What a request asks for
  // ---------------------------------------------------------------------------

  function Asked(t: Target): int { t.amount }

  ghost function AskedOf(i: Id): Target -> int {
    (t: Target) => if t.invoice == i then t.amount else 0
  }

  ghost predicate NoTwice(targets: seq<Target>) {
    forall i, j :: 0 <= i < j < |targets| ==> targets[i].invoice != targets[j].invoice
  }

  /** At least one line, positive amounts, and no invoice twice. */
  ghost predicate WellFormed(targets: seq<Target>) {
    targets != [] && NoTwice(targets) && forall x :: x in targets ==> x.amount > 0
  }

  /** Every line is for a live invoice of the customer, within its open amount. */
  ghost predicate Payable(invoices: map<Id, Invoice>, customer: Id, targets: seq<Target>) {
    forall x :: x in targets ==>
      && x.invoice in invoices && invoices[x.invoice].status != InvoiceVoid
      && invoices[x.invoice].customer == customer
      && x.amount <= OpenOf(invoices[x.invoice])
  }

  lemma {:induction false} AskedIsRequested(targets: seq<Target>)
    ensures SumOf(targets, Asked) == Requested(targets)
    decreases |targets|
  {
    if targets != [] { AskedIsRequested(targets[1..]); }
  }

  lemma {:induction false} AskedOfIsAmountFor(targets: seq<Target>, i: Id)
    ensures SumOf(targets, AskedOf(i)) == AmountFor(targets, i)
    decreases |targets|
  {
    if targets != [] { AskedOfIsAmountFor(targets[1..], i); }
  }

  /** As many ids as lines means that no id comes twice. */
  lemma {:induction false} CountedMeansDistinct(targets: seq<Target>)
    ensures |TargetIds(targets)| == |targets| <==> NoTwice(targets)
    decreases |targets|
  {
    if targets != [] {
      var first, rest := targets[0], targets[1..];
      assert targets == [first] + rest;
      assert TargetIds(targets) == {first.invoice} + TargetIds(rest);
      IdsAreCounted(rest);
      CountedMeansDistinct(rest);
      if first.invoice in TargetIds(rest) {
        var t :| t in rest && t.invoice == first.invoice;
        var k :| 0 <= k < |rest| && rest[k] == t;
        assert targets[0].invoice == targets[k + 1].invoice;
        assert TargetIds(targets) == TargetIds(rest);
      } else {
        assert |TargetIds(targets)| == |TargetIds(rest)| + 1;
        FirstIsNew(first, rest);
      }
    }
  }

  lemma FirstIsNew(first: Target, rest: seq<Target>)
    requires first.invoice !in TargetIds(rest)
    ensures NoTwice([first] + rest) <==> NoTwice(rest)
  {
    var all := [first] + rest;
    if NoTwice(all) {
      forall i, j | 0 <= i < j < |rest| ensures rest[i].invoice != rest[j].invoice {
        assert all[i + 1] == rest[i] && all[j + 1] == rest[j];
      }
    }
    forall k | 0 <= k < |rest| ensures rest[k].invoice != first.invoice { assert rest[k] in rest; }
  }

  // ---------------------------------------------------------------------------
  // Allocation
  // ---------------------------------------------------------------------------

  /** The guard of the service, told in open amounts and unapplied credit. */
  lemma AdmissibleIff(ar: Ar, p: Id, targets: seq<Target>)
    ensures Admissible(ar, p, targets) <==>
              && WellFormed(targets) && p in ar.payments && ar.payments[p].status == Received
              && Payable(ar.invoices, ar.payments[p].customer, targets)
              && SumOf(targets, Asked) <= UnappliedOf(ar.payments[p])
  {
    hide TargetIds;
    CountedMeansDistinct(targets);
    AskedIsRequested(targets);
  }

  /** Under a reference not used for the payment, an allocation is accepted iff the request
      is well formed, the payment is live, every line is for a live invoice of the payment's
      customer within what is open on it, and all lines are within the unapplied credit. */
  lemma AllocatesIff(t: Tables, p: Id, request: string, targets: seq<Target>)
    requires CommandKey(p, request) !in t.ar.commands
    ensures Perform(t, AllocateOp(p, request, targets)).Done? <==>
              && WellFormed(targets) && p in t.ar.payments && t.ar.payments[p].status == Received
              && Payable(t.ar.invoices, t.ar.payments[p].customer, targets)
              && SumOf(targets, Asked) <= UnappliedOf(t.ar.payments[p])
  {
    hide WellFormed, Payable, UnappliedOf, Admissible, Allocate;
    AdmissibleIff(t.ar, p, targets);
    AllocateCases(t.ar, p, request, targets);
  }

  /** How a new command is refused: an unknown payment is not found; a void payment, or an
      eligible request for more than is left on the payment or on an invoice, is a conflict;
      a malformed request, or one for invoices that are not the customer's live ones, is
      rejected. */
  lemma AllocateRefusals(t: Tables, p: Id, request: string, targets: seq<Target>)
    requires CommandKey(p, request) !in t.ar.commands && Perform(t, AllocateOp(p, request, targets)).Failed?
    ensures var error := Perform(t, AllocateOp(p, request, targets)).error;
            && (error == NotFound <==> WellFormed(targets) && p !in t.ar.payments)
            && (error == Conflict <==>
                  && WellFormed(targets) && p in t.ar.payments
                  && (t.ar.payments[p].status == PaymentVoid || forall x :: x in targets ==>
                        && x.invoice in t.ar.invoices && t.ar.invoices[x.invoice].status != InvoiceVoid
                        && t.ar.invoices[x.invoice].customer == t.ar.payments[p].customer))
            && error in {NotFound, Conflict, Rejected}
  {
    hide TargetIds, FingerprintText, Requested, WithinInvoices, Record;
    CountedMeansDistinct(targets);
  }

  /** How an invoice is refused: as a duplicate iff nothing else is wrong but that the order
      has a live invoice already. */
  lemma SecondInvoiceConflicts(t: Tables, id: Id, order: Id, date: Date, due: Option<int>, customers: Customers)
    ensures Perform(t, IssueOp(id, order, date, due, customers)) == Failed(Conflict) <==>
              && id !in t.ar.invoices
              && order in t.orders && t.orders[order].status == Shipped && t.orders[order].total > 0
              && t.orders[order].currency == "TWD"
              && t.orders[order].customer in customers && customers[t.orders[order].customer].currency == "TWD"
              && t.orders[order].shippedDay <= date.day && (due.Some? ==> date.day <= due.value)
              && exists i :: i in t.ar.invoices && t.ar.invoices[i].order == order
                             && t.ar.invoices[i].status != InvoiceVoid
  {
    hide PostEvent, Ship;
    if order in t.orders && Billable(customers, t.orders[order].customer) {
      BooksObject(t.books, IssuedEvent(id, date, t.orders[order].total));
    }
  }

  /** `y` is the invoice `x` after `paid` more was settled on it. */
  ghost predicate PaidDown(x: Invoice, paid: int, y: Invoice) {
    y == x.(settled := x.settled + paid,
            status := if paid == 0 then x.status else if x.settled + paid == x.total then Paid else Partial)
  }

  /** `after` is the subledger `ar` with the lines of one command written: each invoice paid
      down by what was asked for it, the payment drawn by what was asked in all, one row per
      line in order, and the command on record. */
  ghost predicate Written(ar: Ar, p: Id, request: string, targets: seq<Target>, after: Ar) {
    && after.invoices.Keys == ar.invoices.Keys
    && (forall i :: i in ar.invoices ==> PaidDown(ar.invoices[i], SumOf(targets, AskedOf(i)), after.invoices[i]))
    && p in ar.payments
    && after.payments == ar.payments[p := ar.payments[p].(drawn := ar.payments[p].drawn + SumOf(targets, Asked))]
    && |after.allocations| == |ar.allocations| + |targets| && ar.allocations <= after.allocations
    && (forall k :: 0 <= k < |targets| ==>
          after.allocations[|ar.allocations| + k] == Allocation(p, targets[k].invoice, targets[k].amount))
    && CommandKey(p, request) in after.commands
    && after.commands == ar.commands[CommandKey(p, request) := after.commands[CommandKey(p, request)]]
  }

  lemma {:induction false} RowsInOrder(p: Id, targets: seq<Target>)
    ensures |NewRows(p, targets)| == |targets|
    ensures forall k :: 0 <= k < |targets| ==>
              NewRows(p, targets)[k] == Allocation(p, targets[k].invoice, targets[k].amount)
    decreases |targets|
  {
    if targets != [] { RowsInOrder(p, targets[1..]); }
  }

  lemma InvoiceIsPaidDown(ar: Ar, p: Id, targets: seq<Target>, i: Id)
    requires InvoicesOk(ar) && Admissible(ar, p, targets) && i in ar.invoices
    ensures Settle(ar.invoices, targets).Keys == ar.invoices.Keys
    ensures PaidDown(ar.invoices[i], SumOf(targets, AskedOf(i)), Settle(ar.invoices, targets)[i])
  {
    SettleAt(ar.invoices, targets, i);
    AskedOfIsAmountFor(targets, i);
    assert InvoiceOk(ar.invoices[i], SettledBy(ar.allocations, i));
    if i in TargetIds(targets) {
      var x :| x in targets && x.invoice == i;
      DistinctTargets(targets, x);
    } else {
      UntargetedIsZero(targets, i);
    }
  }

  lemma RecordWrites(ar: Ar, p: Id, request: string, targets: seq<Target>)
    requires InvoicesOk(ar) && Admissible(ar, p, targets)
    ensures Written(ar, p, request, targets, Record(ar, p, request, FingerprintText(targets), targets))
  {
    hide FingerprintText, Settle, NewRows, PaidDown, InvoicesOk;
    SameInvoices(ar, p, targets);
    forall i | i in ar.invoices
      ensures PaidDown(ar.invoices[i], SumOf(targets, AskedOf(i)), Settle(ar.invoices, targets)[i])
    {
      InvoiceIsPaidDown(ar, p, targets, i);
    }
    AskedIsRequested(targets);
    RowsInOrder(p, targets);
  }

  lemma SameInvoices(ar: Ar, p: Id, targets: seq<Target>)
    requires InvoicesOk(ar) && Admissible(ar, p, targets)
    ensures Settle(ar.invoices, targets).Keys == ar.invoices.Keys
  {
    assert targets[0] in targets;
    InvoiceIsPaidDown(ar, p, targets, targets[0].invoice);
  }

  lemma RowsAreSound(t: Tables)
    requires Reached(t)
    ensures InvoicesOk(t.ar) && CommandsOk(t.ar)
  {
    hide Reached, BooksOk, StockOk, OrdersOk, Linked, SourcesKnown, DocumentsPosted, OutboxApplied, TiesOut;
    hide InvoicesOk, CommandsOk;
    ReachedIsOk(t);
  }

  /** A new command is written line by line, and nothing outside the subledger changes. */
  lemma AllocateWrites(t: Tables, p: Id, request: string, targets: seq<Target>)
    requires Reached(t) && CommandKey(p, request) !in t.ar.commands
    requires Perform(t, AllocateOp(p, request, targets)).Done?
    ensures var after := Perform(t, AllocateOp(p, request, targets)).value;
            after == t.(ar := after.ar) && Written(t.ar, p, request, targets, after.ar)
  {
    hide Reached, Written, Admissible, Allocate, Record, InvoicesOk;
    RowsAreSound(t);
    AllocateCases(t.ar, p, request, targets);
    RecordWrites(t.ar, p, request, targets);
  }

  // ---------------------------------------------------------------------------
  // Exposure
  // ---------------------------------------------------------------------------

  /** Settling lowers the open amounts of the customer by exactly what is asked. */
  lemma {:induction false} OpenFalls(invoices: map<Id, Invoice>, targets: seq<Target>, owner: Id, c: Id)
    requires forall x :: x in targets ==>
               && x.invoice in invoices && invoices[x.invoice].status != InvoiceVoid
               && invoices[x.invoice].customer == owner
    ensures SumBy(Settle(invoices, targets), OpenFor(c)) ==
              SumBy(invoices, OpenFor(c)) - if c == owner then SumOf(targets, Asked) else 0
    decreases |targets|
  {
    if targets != [] {
      var x := targets[0];
      assert x in targets;
      var row := SettleOne(invoices[x.invoice], x.amount);
      SumByUpdate(invoices, OpenFor(c), x.invoice, row);
      forall y | y in targets[1..] ensures y in targets {}
      OpenFalls(invoices[x.invoice := row], targets[1..], owner, c);
    }
  }

  /** The same orders have a live invoice before and after. */
  lemma LiveInvoicesStay(x: map<Id, Invoice>, y: map<Id, Invoice>, o: Id)
    requires x.Keys == y.Keys
    requires forall i :: i in x ==>
               x[i].order == y[i].order && (x[i].status == InvoiceVoid <==> y[i].status == InvoiceVoid)
    ensures HasLiveInvoice(x, o) <==> HasLiveInvoice(y, o)
  {
  }

  /** A new command lowers the exposure of the payment's customer by exactly what it asks
      for, and nobody else's. */
  lemma AllocationLowersExposureBy(t: Tables, p: Id, request: string, targets: seq<Target>, c: Id)
    requires Reached(t) && CommandKey(p, request) !in t.ar.commands
    requires Perform(t, AllocateOp(p, request, targets)).Done?
    ensures ExposureIn(Perform(t, AllocateOp(p, request, targets)).value, c) ==
              ExposureIn(t, c) - if c == t.ar.payments[p].customer then SumOf(targets, Asked) else 0
  {
    hide Reached, Allocate, HasLiveInvoice, Settle, InvoicesOk, FingerprintText, WellFormed;
    AllocatesIff(t, p, request, targets);
    AllocateCases(t.ar, p, request, targets);
    var before, after := t.ar.invoices, Settle(t.ar.invoices, targets);
    OpenFalls(before, targets, t.ar.payments[p].customer, c);
    RowsAreSound(t);
    SameInvoices(t.ar, p, targets);
    forall i | i in before
      ensures before[i].order == after[i].order
      ensures before[i].status == InvoiceVoid <==> after[i].status == InvoiceVoid
    {
      LiveAsBefore(t.ar, p, targets, i);
    }
    forall o | o in t.orders
      ensures UninvoicedFor(before, c)(t.orders[o]) == UninvoicedFor(after, c)(t.orders[o])
    {
      LiveInvoicesStay(before, after, t.orders[o].id);
    }
    SumByCongruent(t.orders, UninvoicedFor(before, c), UninvoicedFor(after, c));
  }

  lemma LiveAsBefore(ar: Ar, p: Id, targets: seq<Target>, i: Id)
    requires InvoicesOk(ar) && Admissible(ar, p, targets) && i in ar.invoices
    ensures Settle(ar.invoices, targets).Keys == ar.invoices.Keys
    ensures var x, y := ar.invoices[i], Settle(ar.invoices, targets)[i];
            x.order == y.order && (x.status == InvoiceVoid <==> y.status == InvoiceVoid)
  {
    InvoiceIsPaidDown(ar, p, targets, i);
    if ar.invoices[i].status == InvoiceVoid { NothingAsked(targets, i); }
  }

  lemma {:induction false} NothingAsked(targets: seq<Target>, i: Id)
    requires forall x :: x in targets ==> x.invoice != i
    ensures SumOf(targets, AskedOf(i)) == 0
    decreases |targets|
  {
    if targets != [] {
      assert targets[0] in targets;
      forall x | x in targets[1..] ensures x.invoice != i {}
      NothingAsked(targets[1..], i);
    }
  }

  // ---------------------------------------------------------------------------
  // One entry in the books
  // ---------------------------------------------------------------------------

  /** `c` is `b` with one entry more, which moves `amount` to account `debit` from account
      `credit` and leaves every other account alone. */
  ghost predicate Moves(b: Books, c: Books, date: Date, source: Source, debit: Code, credit: Code, amount: int) {
    && c == b.(entries := c.entries, nextNo := c.nextNo)
    && |c.entries| == |b.entries| + 1 && b.entries <= c.entries
    && var x := c.entries[|b.entries|];
       && x.date == date && x.source == Some(source) && x.reversalOf == None
       && forall a ::
            var change := (if a == debit then amount else 0) - (if a == credit then amount else 0);
            Net(x.lines, a) == change && Balance(c.entries, a) == Balance(b.entries, a) + change
  }

  lemma DeliveryMoves(b: Books, e: Event, amount: int)
    requires e.kind in POSTING_RULES && PostEvent(b, e).Done? && !HasSource(b.entries, KeyOf(e))
    requires e.exact == MICRO * amount && amount > 0
    ensures var rule := POSTING_RULES[e.kind];
            Moves(b, PostEvent(b, e).value, e.date, KeyOf(e), rule.debit, rule.credit, amount)
  {
    hide PostEvent, Net, EventLines, RoundHalfEven;
    var rule, c := POSTING_RULES[e.kind], PostEvent(b, e).value;
    DeliveryShape(b, e);
    GridPointsAreFixed(amount);
    forall a
      ensures Net(EventLines(rule, e.exact), a) ==
                (if a == rule.debit then amount else 0) - (if a == rule.credit then amount else 0)
    {
      EventLinesFacts(rule, e.exact, a);
    }
    assert c.entries[|b.entries|].lines == EventLines(rule, e.exact);
  }

  /** The first publication of a document's event adds its one entry and its outbox row. */
  lemma PublicationMoves(t: Tables, e: Event, amount: int)
    requires e.kind in POSTING_RULES && e.kind != GoodsShipped && e.kind != OrderConfirmed
    requires Publish(t, e).Done? && !HasSource(t.books.entries, KeyOf(e))
    requires e.exact == MICRO * amount && amount > 0
    ensures var u, rule := Publish(t, e).value, POSTING_RULES[e.kind];
            && u == t.(books := u.books, outbox := t.outbox + [e])
            && Moves(t.books, u.books, e.date, KeyOf(e), rule.debit, rule.credit, amount)
  {
    hide PostEvent, Moves;
    DeliveryMoves(t.books, e, amount);
  }

  // ---------------------------------------------------------------------------
  // Invoices
  // ---------------------------------------------------------------------------

  /** Issuing files the order's customer and total with the due date asked for, or else the
      customer's terms from the invoice date; receivables rise by the total against revenue. */
  lemma IssueWrites(t: Tables, id: Id, order: Id, date: Date, due: Option<int>, customers: Customers)
    requires Reached(t) && Perform(t, IssueOp(id, order, date, due, customers)).Done?
    ensures var after, o := Perform(t, IssueOp(id, order, date, due, customers)).value, t.orders[order];
            var dueDay := match due case Some(day) => day case None => date.day + customers[o.customer].terms;
            var row := Invoice(order, o.customer, dueDay, o.total, 0, Unsettled);
            && after == t.(ar := t.ar.(invoices := t.ar.invoices[id := row]), books := after.books,
                           outbox := t.outbox + [Event(InvoiceIssued, id, date, [], MICRO * o.total)])
            && Moves(t.books, after.books, date, Source(InvoiceIssued, id), 1100, 4000, o.total)
  {
    hide Reached, Publish, Moves, HasLiveInvoice;
    var o := t.orders[order];
    FreshInReached(t, Source(InvoiceIssued, id));
    var ar := AddInvoice(t.ar, id, order, o.customer, DueDay(due, date, customers[o.customer]), o.total).value;
    PublicationMoves(t.(ar := ar), Event(InvoiceIssued, id, date, [], MICRO * o.total), o.total);
  }

  /** Voiding marks the invoice and takes its total back from receivables and revenue. */
  lemma VoidWrites(t: Tables, id: Id, today: Date)
    requires Reached(t) && Perform(t, VoidInvoiceOp(id, today)).Done?
    ensures var after, row := Perform(t, VoidInvoiceOp(id, today)).value, t.ar.invoices[id];
            && after == t.(ar := t.ar.(invoices := t.ar.invoices[id := row.(status := InvoiceVoid)]),
                           books := after.books,
                           outbox := t.outbox + [Event(InvoiceVoided, id, today, [], MICRO * row.total)])
            && Moves(t.books, after.books, today, Source(InvoiceVoided, id), 4000, 1100, row.total)
  {
    hide Reached, Publish, Moves;
    BalancesMatchRows(t, id, 0);
    FreshInReached(t, Source(InvoiceVoided, id));
    var ar, total := VoidInvoice(t.ar, id).value, t.ar.invoices[id].total;
    PublicationMoves(t.(ar := ar), Event(InvoiceVoided, id, today, [], MICRO * total), total);
  }

  // ---------------------------------------------------------------------------
  // Receipts
  // ---------------------------------------------------------------------------

  /** A receipt is accepted iff the customer is known and billed in the functional currency,
      the amount is positive, id and reference are new, the books carry cash and receivables,
      and the lines of an inline allocation, if any, are well formed, for live invoices of
      the customer within what is open on each, and within the amount received. */
  lemma ReceivesIff(t: Tables, id: Id, customer: Id, customers: Customers, reference: string, amount: int, at: Date,
                    targets: seq<Target>)
    requires Reached(t)
    ensures Perform(t, ReceiveOp(id, customer, customers, reference, amount, at, targets)).Done? <==>
              && customer in customers && customers[customer].currency == "TWD"
              && amount > 0 && id !in t.ar.payments
              && (forall p :: p in t.ar.payments ==> t.ar.payments[p].reference != reference)
              && BooksCarry(t.books, {1000, 1100}, at)
              && (targets != [] ==>
                    && WellFormed(targets) && Payable(t.ar.invoices, customer, targets)
                    && SumOf(targets, Asked) <= amount)
  {
    hide Reached, Publish, WellFormed, Payable, Allocate, BooksCarry;
    if Billable(customers, customer) && AddPayment(t.ar, id, customer, reference, amount).Done? {
      var ar := AddPayment(t.ar, id, customer, reference, amount).value;
      var e := Event(PaymentReceived, id, at, [], MICRO * amount);
      FreshInReached(t, Source(PaymentReceived, id));
      ReceiptPosts(t.(ar := ar), e, amount);
      RowsAreSound(t);
      if targets != [] && Publish(t.(ar := ar), e).Done? {
        PublicationMoves(t.(ar := ar), e, amount);
        AdmissibleIff(ar, id, targets);
        AllocateCases(ar, id, reference, targets);
      }
    }
  }

  lemma ReceiptPosts(t: Tables, e: Event, amount: int)
    requires e.kind == PaymentReceived && amount > 0 && e.exact == MICRO * amount
    requires !HasSource(t.books.entries, KeyOf(e))
    ensures Publish(t, e).Done? <==> BooksCarry(t.books, {1000, 1100}, e.date)
  {
    hide Publish;
    DocumentPosts(t, e, amount);
  }

  /** A receipt files its payment, moves the amount to cash from receivables, and writes the
      inline allocation, if any, under the receipt's own reference. */
  lemma ReceiveWrites(t: Tables, id: Id, customer: Id, customers: Customers, reference: string, amount: int, at: Date,
                      targets: seq<Target>)
    requires Reached(t)
    requires Perform(t, ReceiveOp(id, customer, customers, reference, amount, at, targets)).Done?
    ensures var after := Perform(t, ReceiveOp(id, customer, customers, reference, amount, at, targets)).value;
            var filed := t.ar.(payments := t.ar.payments[id := Payment(customer, reference, amount, 0, Received)]);
            && after == t.(ar := after.ar, books := after.books,
                           outbox := t.outbox + [Event(PaymentReceived, id, at, [], MICRO * amount)])
            && Moves(t.books, after.books, at, Source(PaymentReceived, id), 1000, 1100, amount)
            && if targets == [] then after.ar == filed else Written(filed, id, reference, targets, after.ar)
  {
    hide Reached, Publish, Allocate, Moves, Written, Admissible, Record, ReferenceUsed;
    var ar := AddPayment(t.ar, id, customer, reference, amount).value;
    FreshInReached(t, Source(PaymentReceived, id));
    PublicationMoves(t.(ar := ar), Event(PaymentReceived, id, at, [], MICRO * amount), amount);
    if targets != [] {
      RowsAreSound(t);
      SoundWithPayment(t.ar, ar);
      AllocateCases(ar, id, reference, targets);
      RecordWrites(ar, id, reference, targets);
    }
  }

  lemma SoundWithPayment(x: Ar, y: Ar)
    requires InvoicesOk(x) && y == x.(payments := y.payments)
    ensures InvoicesOk(y)
  {
  }

  /** Voiding a receipt marks the payment and moves the amount back to receivables. */
  lemma VoidReceiptWrites(t: Tables, id: Id, today: Date)
    requires Reached(t) && Perform(t, VoidPaymentOp(id, today)).Done?
    ensures var after, row := Perform(t, VoidPaymentOp(id, today)).value, t.ar.payments[id];
            && after == t.(ar := t.ar.(payments := t.ar.payments[id := row.(status := PaymentVoid)]),
                           books := after.books,
                           outbox := t.outbox + [Event(PaymentVoided, id, today, [], MICRO * row.amount)])
            && Moves(t.books, after.books, today, Source(PaymentVoided, id), 1100, 1000, row.amount)
  {
    hide Reached, Publish, Moves;
    BalancesMatchRows(t, 0, id);
    FreshInReached(t, Source(PaymentVoided, id));
    var ar, amount := VoidPayment(t.ar, id).value, t.ar.payments[id].amount;
    PublicationMoves(t.(ar := ar), Event(PaymentVoided, id, today, [], MICRO * amount), amount);
  }
}
