/** Every change a service call makes to the journal's numbers and periods is a run of the
    numbering protocol: its guards are no stricter than the services'. */
module SerialNumbering {
  import opened Common
  import opened Schedules
  import opened Decimals
  import opened Ledger
  import opened Posting
  import opened Inventory
  import opened Receivables
  import opened Sales
  import opened Credit
  import opened Kernel
  import P = NumberingProtocol

  /** The numbers and months of the journal's entries, in posting order. */
  function Numbered(entries: seq<Entry>, c: Id): seq<P.Numbered> {
    if entries == [] then [] else
    var last := entries[|entries| - 1];
    Numbered(entries[..|entries| - 1], c) + [P.Numbered(P.Period(c, MonthOf(last.date)), last.number)]
  }

  /** The part of the log that is the company's. */
  function OfCompany(entries: seq<P.Numbered>, c: Id): seq<P.Numbered> {
    if entries == [] then [] else
    var last := entries[|entries| - 1];
    OfCompany(entries[..|entries| - 1], c) + if last.period.company == c then [last] else []
  }

  /** The company's committed counters, periods and numbers are those of its books, and
      nobody is at work. */
  ghost predicate Mirrors(b: Books, s: P.State, c: Id) {
    && s.posters == map[] && s.closers == map[]
    && (forall y :: P.NextNumber(s.counters, P.Counter(c, y)) == NextNo(b.nextNo, y))
    && (forall m :: P.Period(c, m) in s.periods <==> m in b.periods)
    && (forall m :: m in b.periods ==> s.periods[P.Period(c, m)] == b.periods[m])
    && OfCompany(P.EntriesIn(s.log), c) == Numbered(b.entries, c)
  }

  ghost predicate Reproduces(s: P.State, b: Books, c: Id) {
    exists u :: Reaches(P.Next, s, u) && Mirrors(b, u, c)
  }

  const TX: P.TxId := 0

  function At(s: P.State, w: P.Work): P.State { s.(posters := map[TX := P.Poster(w, None)]) }

  lemma Goes(s: P.State, w: P.Work, a: P.PosterAction, next: P.Work)
    requires Reaches(P.Next, s, At(s, w)) && P.PosterNext(At(s, w), P.Poster(w, None), a) == Some(P.Poster(next, None))
    ensures Reaches(P.Next, s, At(s, next))
  {
    hide P.PosterNext, Reaches;
    Then(P.Next, s, At(s, w), P.Proceed(TX, a));
    assert P.Next(At(s, w), P.Proceed(TX, a)) == At(s, next);
  }

  /** A posting transaction, from its first lock to the inserted entry. */
  lemma Posts(s: P.State, p: P.Period)
    requires s.posters == map[] && s.closers == map[] && P.StillOpen(s, p)
    ensures var k, n := P.CounterOf(p), P.NextNumber(s.counters, P.CounterOf(p));
            Reaches(P.Next, s, At(s, P.Work({p}, map[k := n + 1], None, [P.Numbered(p, n)])))
  {
    hide Reaches;
    var k, n := P.CounterOf(p), P.NextNumber(s.counters, P.CounterOf(p));
    var empty := P.Work({}, map[], None, []);
    var held := P.Work({p}, map[], None, []);
    var ready := P.Work({p}, map[k := n], None, []);
    var numbered := P.Work({p}, map[k := n + 1], Some(P.Numbered(p, n)), []);
    Stays(P.Next, s);
    Then(P.Next, s, s, P.BeginPosting(TX));
    assert P.Next(s, P.BeginPosting(TX)) == At(s, empty);
    assert empty.periods + {p} == {p};
    Goes(s, empty, P.LockPeriod(p), held);
    assert held.next[k := n] == map[k := n];
    Goes(s, held, P.LockCounter(k), ready);
    assert ready.next[k := n + 1] == map[k := n + 1];
    Goes(s, ready, P.TakeNumber(p), numbered);
    assert numbered.entries + [P.Numbered(p, n)] == [P.Numbered(p, n)];
    Goes(s, numbered, P.InsertEntry, P.Work({p}, map[k := n + 1], None, [P.Numbered(p, n)]));
  }

  lemma LogGrows(log: seq<P.Event>, x: P.Numbered, c: Id)
    ensures P.EntriesIn(log + P.PostedAll([x])) == P.EntriesIn(log) + [x]
    ensures OfCompany(P.EntriesIn(log) + [x], c) ==
              OfCompany(P.EntriesIn(log), c) + if x.period.company == c then [x] else []
  {
    assert P.PostedAll([x]) == [P.Posted(x)];
    assert (log + [P.Posted(x)])[..|log|] == log;
    assert (P.EntriesIn(log) + [x])[..|P.EntriesIn(log)|] == P.EntriesIn(log);
  }

  /** One entry appended to the books. */
  lemma PostingRuns(s: P.State, b: Books, c: Id, d: Date, source: Option<Source>, reversalOf: Option<nat>,
                    lines: seq<Line>)
    requires Mirrors(b, s, c) && PeriodOpen(b, d)
    ensures Reproduces(s, Append(b, d, source, reversalOf, lines), c)
  {
    hide Reaches, Mirrors, P.PostedAll, Append, P.NextNumber;
    var p := P.Period(c, MonthOf(d));
    var k, n := P.CounterOf(p), P.NextNumber(s.counters, P.CounterOf(p));
    MirroredPeriod(s, b, c, d);
    Posts(s, p);
    var w := P.Work({p}, map[k := n + 1], None, [P.Numbered(p, n)]);
    Then(P.Next, s, At(s, w), P.CommitPosting(TX));
    assert At(s, w).posters - {TX} == map[];
    PostedIsMirrored(s, b, c, d, source, reversalOf, lines);
  }

  lemma MirroredPeriod(s: P.State, b: Books, c: Id, d: Date)
    requires Mirrors(b, s, c) && PeriodOpen(b, d)
    ensures s.posters == map[] && s.closers == map[] && P.StillOpen(s, P.Period(c, MonthOf(d)))
  {
  }

  /** What a committed posting leaves behind mirrors the longer journal. */
  lemma PostedIsMirrored(s: P.State, b: Books, c: Id, d: Date, source: Option<Source>, reversalOf: Option<nat>,
                         lines: seq<Line>)
    requires Mirrors(b, s, c)
    ensures var p := P.Period(c, MonthOf(d));
            var k, n := P.CounterOf(p), P.NextNumber(s.counters, P.CounterOf(p));
            Mirrors(Append(b, d, source, reversalOf, lines),
                    s.(counters := s.counters + map[k := n + 1], log := s.log + P.PostedAll([P.Numbered(p, n)])), c)
  {
    var p, after := P.Period(c, MonthOf(d)), Append(b, d, source, reversalOf, lines);
    var n := NextNo(b.nextNo, d.year);
    assert P.NextNumber(s.counters, P.CounterOf(p)) == n;
    LogGrows(s.log, P.Numbered(p, n), c);
    assert after.entries[..|after.entries| - 1] == b.entries;
  }

  lemma ClosedLog(log: seq<P.Event>, p: P.Period)
    ensures P.EntriesIn(log + [P.PeriodClosed(p)]) == P.EntriesIn(log)
  {
    assert (log + [P.PeriodClosed(p)])[..|log|] == log;
    assert P.EntriesIn(log) + [] == P.EntriesIn(log);
  }

  lemma ClosingRuns(s: P.State, b: Books, c: Id, m: Month)
    requires Mirrors(b, s, c) && Close(b, m).Done?
    ensures Reproduces(s, Close(b, m).value, c)
  {
    hide Reaches, Mirrors, Close, P.StillOpen;
    var p := P.Period(c, m);
    MirroredClose(s, b, c, m);
    var waiting, locked := s.(closers := map[TX := P.Closer(p, false)]), s.(closers := map[TX := P.Closer(p, true)]);
    Stays(P.Next, s);
    Then(P.Next, s, s, P.BeginClose(TX, p));
    assert P.Next(s, P.BeginClose(TX, p)) == waiting;
    Then(P.Next, s, waiting, P.LockForClose(TX));
    assert P.Next(waiting, P.LockForClose(TX)) == locked;
    Then(P.Next, s, locked, P.CommitClose(TX));
    assert locked.closers - {TX} == map[];
  }

  lemma MirroredClose(s: P.State, b: Books, c: Id, m: Month)
    requires Mirrors(b, s, c) && Close(b, m).Done?
    ensures s.posters == map[] && s.closers == map[] && P.Period(c, m) in s.periods
    ensures Mirrors(Close(b, m).value, s.(periods := s.periods[P.Period(c, m) := Closed],
                                          log := s.log + [P.PeriodClosed(P.Period(c, m))]), c)
  {
    ClosedLog(s.log, P.Period(c, m));
  }

  lemma OpeningRuns(s: P.State, b: Books, c: Id, m: Month)
    requires Mirrors(b, s, c) && OpenNew(b, m).Done?
    ensures Reproduces(s, OpenNew(b, m).value, c)
  {
    hide Reaches;
    Stays(P.Next, s);
    Then(P.Next, s, s, P.OpenPeriod(P.Period(c, m)));
    assert Mirrors(OpenNew(b, m).value, P.Next(s, P.OpenPeriod(P.Period(c, m))), c);
  }

  // ---------------------------------------------------------------------------
  // Every service call
  // ---------------------------------------------------------------------------

  /** The change one call makes to the books: none but to the chart, one entry in an open
      month, or one period closed or opened. */
  ghost predicate OneChange(b: Books, c: Books) {
    || c == b.(chart := c.chart)
    || (exists d: Date, source: Option<Source>, reversalOf: Option<nat>, lines: seq<Line> ::
          PeriodOpen(b, d) && c == Append(b, d, source, reversalOf, lines))
    || (exists m :: Close(b, m) == Done(c))
    || (exists m :: OpenNew(b, m) == Done(c))
  }

  lemma DeliveryIsOneChange(b: Books, e: Event)
    requires PostEvent(b, e).Done?
    ensures OneChange(b, PostEvent(b, e).value)
  {
    hide EventLines, Append, RoundHalfEven;
    DeliveryShape(b, e);
    var c := PostEvent(b, e).value;
    if e.exact != 0 && !HasSource(b.entries, KeyOf(e)) {
      assert PeriodOpen(b, e.date);
      assert c == Append(b, e.date, Some(KeyOf(e)), None, EventLines(POSTING_RULES[e.kind], e.exact));
    }
  }

  lemma DispatchIsOneChange(t: Tables, e: Event)
    requires Dispatch(t, e).Done?
    ensures OneChange(t.books, Dispatch(t, e).value.books)
  {
    hide PostEvent, Ship, OneChange;
    if e.kind == OrderConfirmed { NoChange(t.books); } else { DeliveryIsOneChange(t.books, e); }
  }

  lemma NoChange(b: Books)
    ensures OneChange(b, b)
  {
  }

  lemma PublishIsOneChange(t: Tables, e: Event)
    requires Publish(t, e).Done?
    ensures OneChange(t.books, Publish(t, e).value.books)
  {
    hide Dispatch, OneChange;
    DispatchIsOneChange(t.(outbox := t.outbox + [e]), e);
  }

  lemma DocumentIsOneChange(t: Tables, op: Op)
    requires op.ConfirmOp? || op.ShipOp? || op.IssueOp? || op.VoidInvoiceOp? || op.VoidPaymentOp? || op.ReceiveOp?
    requires Perform(t, op).Done?
    ensures OneChange(t.books, Perform(t, op).value.books)
  {
    hide Publish, OneChange, Exposure, MarkConfirmed, Payload, CostTotal, Allocate, ExactTotal;
    match op {
      case ConfirmOp(id, catalog, customers, grace, at) =>
        PublishIsOneChange(t.(orders := MarkConfirmed(t.orders, id, catalog)),
                           Event(OrderConfirmed, id, at, [],
                                 PriceForConfirm(t.orders, id, customers.Keys, catalog).value));
      case ShipOp(id, catalog, at) => PublishIsOneChange(t, ShipmentEvent(t.orders, id, catalog, at).value);
      case IssueOp(id, order, date, due, customers) =>
        var o := t.orders[order];
        var ar := AddInvoice(t.ar, id, order, o.customer, DueDay(due, date, customers[o.customer]), o.total).value;
        PublishIsOneChange(t.(ar := ar), IssuedEvent(id, date, o.total));
      case VoidInvoiceOp(id, today) =>
        PublishIsOneChange(t.(ar := VoidInvoice(t.ar, id).value),
                           Event(InvoiceVoided, id, today, [], MICRO * t.ar.invoices[id].total));
      case VoidPaymentOp(id, today) =>
        PublishIsOneChange(t.(ar := VoidPayment(t.ar, id).value),
                           Event(PaymentVoided, id, today, [], MICRO * t.ar.payments[id].amount));
      case ReceiveOp(id, customer, customers, reference, amount, at, targets) =>
        PublishIsOneChange(t.(ar := AddPayment(t.ar, id, customer, reference, amount).value),
                           Event(PaymentReceived, id, at, [], MICRO * amount));
    }
  }

  lemma BookIsOneChange(t: Tables, op: Op)
    requires op.ManualEntryOp? || op.ReverseOp? || op.OpenPeriodOp? || op.ClosePeriodOp? || op.AccountOp?
    requires Perform(t, op).Done?
    ensures OneChange(t.books, Perform(t, op).value.books)
  {
    hide Postable, TouchesControl, Swapped, IsReversed, Append;
    var b := t.books;
    match op {
      case ManualEntryOp(date, entry) =>
        assert Perform(t, op).value.books == Append(b, date, None, None, entry);
      case ReverseOp(id, today) =>
        assert Perform(t, op).value.books == Append(b, today, None, Some(id), Swapped(b.entries[id].lines));
      case OpenPeriodOp(m) => assert OpenNew(b, m) == Done(Perform(t, op).value.books);
      case ClosePeriodOp(m) => assert Close(b, m) == Done(Perform(t, op).value.books);
      case AccountOp(_, _) =>
    }
  }

  lemma CallIsOneChange(t: Tables, op: Op)
    requires Perform(t, op).Done?
    ensures OneChange(t.books, Perform(t, op).value.books)
  {
    hide OneChange, Dispatch, Create, Update, Cancel, ApplyMove, Allocate, Rebuild, RebuildAr, Confirm, ShipOrder,
        Issue, Void, Receive, VoidReceipt, Post, Reverse, Close, OpenNew, SetAccount;
    NoChange(t.books);
    match op {
      case ConfirmOp(_, _, _, _, _) => DocumentIsOneChange(t, op);
      case ShipOp(_, _, _) => DocumentIsOneChange(t, op);
      case IssueOp(_, _, _, _, _) => DocumentIsOneChange(t, op);
      case VoidInvoiceOp(_, _) => DocumentIsOneChange(t, op);
      case VoidPaymentOp(_, _) => DocumentIsOneChange(t, op);
      case ReceiveOp(_, _, _, _, _, _, _) => DocumentIsOneChange(t, op);
      case RedeliverOp(row) => DispatchIsOneChange(t, t.outbox[row]);
      case ManualEntryOp(_, _) => BookIsOneChange(t, op);
      case ReverseOp(_, _) => BookIsOneChange(t, op);
      case OpenPeriodOp(_) => BookIsOneChange(t, op);
      case ClosePeriodOp(_) => BookIsOneChange(t, op);
      case AccountOp(_, _) => BookIsOneChange(t, op);
      case _ =>
    }
  }

  lemma OneChangeRuns(s: P.State, b: Books, after: Books, c: Id)
    requires Mirrors(b, s, c) && OneChange(b, after)
    ensures Reproduces(s, after, c)
  {
    hide Reaches, Reproduces, Append, Mirrors;
    if after == b.(chart := after.chart) {
      SameNumbers(s, b, after, c);
    } else if m :| Close(b, m) == Done(after) {
      ClosingRuns(s, b, c, m);
    } else if m :| OpenNew(b, m) == Done(after) {
      OpeningRuns(s, b, c, m);
    } else {
      var d: Date, source: Option<Source>, reversalOf: Option<nat>, lines: seq<Line> :|
        PeriodOpen(b, d) && after == Append(b, d, source, reversalOf, lines);
      PostingRuns(s, b, c, d, source, reversalOf, lines);
    }
  }

  lemma SameNumbers(s: P.State, b: Books, after: Books, c: Id)
    requires Mirrors(b, s, c) && after == b.(chart := after.chart)
    ensures Reproduces(s, after, c)
  {
    hide Reaches;
    Stays(P.Next, s);
    assert Mirrors(after, s, c);
  }

  lemma ServiceIsReproduced(t: Tables, s: P.State, op: Op, c: Id)
    requires Mirrors(t.books, s, c)
    ensures Reproduces(s, Apply(t, op).books, c)
  {
    hide Reaches, Reproduces, Mirrors, Perform, OneChange;
    if Perform(t, op).Done? { CallIsOneChange(t, op); } else { NoChange(t.books); }
    OneChangeRuns(s, t.books, Apply(t, op).books, c);
  }

  lemma {:induction false} FoldIsRun(s: P.State, actions: seq<P.Action>)
    ensures Fold(P.Next, s, actions) == P.Run(s, actions)
    decreases |actions|
  {
    if actions != [] { FoldIsRun(P.Next(s, actions[0]), actions[1..]); }
  }

  /** Whatever a service call does to numbers and periods, some schedule does too. */
  lemma EveryServiceRuns(t: Tables, s: P.State, op: Op, c: Id)
    requires Mirrors(t.books, s, c)
    ensures exists actions :: Mirrors(Apply(t, op).books, P.Run(s, actions), c)
  {
    hide Mirrors, Apply;
    ServiceIsReproduced(t, s, op, c);
    var u :| Reaches(P.Next, s, u) && Mirrors(Apply(t, op).books, u, c);
    var actions: seq<P.Action> :| Fold(P.Next, s, actions) == u;
    FoldIsRun(s, actions);
  }
}
