/** Every stock movement of the sequential kernel, and every rebuild from whatever drift, is
    a run of the stock protocol: its guards are no stricter than the services'. */
module SerialStock {
  import opened Common
  import opened Schedules
  import opened Sums
  import opened Ledger
  import opened Posting
  import opened Inventory
  import opened Receivables
  import opened Sales
  import opened Credit
  import opened Kernel
  import opened Reachable
  import P = StockProtocol

  /** The company's committed stock is the kernel's, and nobody is at work. */
  ghost predicate Mirrors(st: Stock, s: P.State, c: Id) {
    P.StockOf(s, c) == st && s.writers == map[] && s.rebuilders == map[]
  }

  ghost predicate Reproduces(s: P.State, st: Stock, c: Id) {
    exists u :: Reaches(P.Next, s, u) && Mirrors(st, u, c)
  }

  const TX: P.TxId := 0

  // ---------------------------------------------------------------------------
  // A writer alone
  // ---------------------------------------------------------------------------

  function At(s: P.State, w: P.Writer): P.State { s.(writers := map[TX := w]) }

  lemma Goes(s: P.State, w: P.Writer, a: P.WriterAction, next: P.Writer)
    requires Reaches(P.Next, s, At(s, w)) && P.WriterNext(At(s, w), w, a) == Some(next)
    ensures Reaches(P.Next, s, At(s, next))
  {
    hide P.WriterNext, Reaches;
    Then(P.Next, s, At(s, w), P.Write(TX, a));
    assert P.Next(At(s, w), P.Write(TX, a)) == At(s, next);
  }

  /** Locking a row and writing one move on it is one sequential move. */
  lemma OneMove(s: P.State, w: P.Writer, p: Id, delta: int, source: Option<Source>)
    requires s.rebuilders == map[] && Reaches(P.Next, s, At(s, w)) && w.shared && p !in w.rows
    requires ApplyMove(P.WriterResult(P.StockOf(s, w.company), w), p, delta, source).Done?
    ensures var st := P.StockOf(s, w.company);
            var next := w.(rows := w.rows[p := OnHand(st.onHand, p) + delta],
                           moves := w.moves + [Move(p, delta, source)]);
            Reaches(P.Next, s, At(s, next)) &&
            P.WriterResult(st, next) == ApplyMove(P.WriterResult(st, w), p, delta, source).value
  {
    hide Reaches, P.WriterResult, ApplyMove, P.StockOf;
    var st := P.StockOf(s, w.company);
    var locked := w.(rows := w.rows[p := OnHand(st.onHand, p)]);
    var next := w.(rows := w.rows[p := OnHand(st.onHand, p) + delta], moves := w.moves + [Move(p, delta, source)]);
    MoveIsPossible(st, w, p, delta, source);
    SameCompany(s, w);
    Goes(s, w, P.LockRow(p), locked);
    assert locked.rows[p := OnHand(st.onHand, p) + delta] == next.rows;
    Goes(s, locked, P.WriteMove(p, delta, source), next);
  }

  lemma SameCompany(s: P.State, w: P.Writer)
    ensures P.StockOf(At(s, w), w.company) == P.StockOf(s, w.company)
  {
  }

  lemma MoveIsPossible(st: Stock, w: P.Writer, p: Id, delta: int, source: Option<Source>)
    requires p !in w.rows && ApplyMove(P.WriterResult(st, w), p, delta, source).Done?
    ensures var next := w.(rows := w.rows[p := OnHand(st.onHand, p) + delta],
                           moves := w.moves + [Move(p, delta, source)]);
            && delta != 0 && OnHand(st.onHand, p) + delta >= 0
            && P.WriterResult(st, next) == ApplyMove(P.WriterResult(st, w), p, delta, source).value
  {
    hide HasMove;
    var rows := w.rows[p := OnHand(st.onHand, p) + delta];
    assert OnHand(st.onHand + w.rows, p) == OnHand(st.onHand, p);
    assert st.onHand + rows == (st.onHand + w.rows)[p := OnHand(st.onHand, p) + delta];
    assert st.moves + (w.moves + [Move(p, delta, source)]) == (st.moves + w.moves) + [Move(p, delta, source)];
  }

  lemma {:induction false} WholeBatch(s: P.State, w: P.Writer, products: seq<Id>, qty: map<Id, int>, source: Source)
    requires s.rebuilders == map[] && Reaches(P.Next, s, At(s, w)) && w.shared
    requires NoRepeat(products) && forall p :: p in products ==> p in qty && p !in w.rows
    requires ApplyBatch(P.WriterResult(P.StockOf(s, w.company), w), products, qty, source).Done?
    ensures exists v: P.Writer ::
              && v.company == w.company && Reaches(P.Next, s, At(s, v))
              && P.WriterResult(P.StockOf(s, w.company), v) ==
                 ApplyBatch(P.WriterResult(P.StockOf(s, w.company), w), products, qty, source).value
    decreases |products|
  {
    hide Reaches, ApplyMove, P.WriterResult;
    if products == [] {
      assert w.company == w.company && Reaches(P.Next, s, At(s, w));
    } else {
      var p := products[0];
      OneMove(s, w, p, -qty[p], Some(source));
      var st := P.StockOf(s, w.company);
      var next := w.(rows := w.rows[p := OnHand(st.onHand, p) + -qty[p]],
                     moves := w.moves + [Move(p, -qty[p], Some(source))]);
      WholeBatch(s, next, products[1..], qty, source);
    }
  }

  lemma Begins(s: P.State, c: Id)
    requires s.writers == map[] && s.rebuilders == map[]
    ensures Reaches(P.Next, s, At(s, P.Writer(c, true, map[], [], None)))
    ensures P.WriterResult(P.StockOf(s, c), P.Writer(c, true, map[], [], None)) == P.StockOf(s, c)
  {
    hide Reaches;
    var w := P.Writer(c, false, map[], [], None);
    Stays(P.Next, s);
    Then(P.Next, s, s, P.BeginWriter(TX, c));
    assert P.Next(s, P.BeginWriter(TX, c)) == At(s, w);
    Goes(s, w, P.AcquireShared, w.(shared := true));
    assert P.StockOf(s, c).onHand + map[] == P.StockOf(s, c).onHand;
    assert P.StockOf(s, c).moves + [] == P.StockOf(s, c).moves;
  }

  lemma Commits(s: P.State, w: P.Writer)
    requires Reaches(P.Next, s, At(s, w)) && s.writers == map[] && s.rebuilders == map[]
    ensures Reproduces(s, P.WriterResult(P.StockOf(s, w.company), w), w.company)
  {
    hide Reaches, P.WriterResult;
    Then(P.Next, s, At(s, w), P.CommitWriter(TX));
    var u := P.Next(At(s, w), P.CommitWriter(TX));
    assert At(s, w).writers - {TX} == map[];
    assert Mirrors(P.WriterResult(P.StockOf(s, w.company), w), u, w.company);
  }

  lemma NothingRuns(s: P.State, st: Stock, c: Id)
    requires Mirrors(st, s, c)
    ensures Reproduces(s, st, c)
  {
    hide Reaches;
    Stays(P.Next, s);
  }

  lemma AdjustRuns(s: P.State, st: Stock, c: Id, product: Id, delta: int)
    requires Mirrors(st, s, c) && ApplyMove(st, product, delta, None).Done?
    ensures Reproduces(s, ApplyMove(st, product, delta, None).value, c)
  {
    hide Reaches, Reproduces, ApplyMove, P.WriterResult;
    var w := P.Writer(c, true, map[], [], None);
    Begins(s, c);
    OneMove(s, w, product, delta, None);
    Commits(s, w.(rows := w.rows[product := OnHand(st.onHand, product) + delta],
                  moves := w.moves + [Move(product, delta, None)]));
  }

  lemma ShipmentRuns(s: P.State, st: Stock, c: Id, lines: seq<ShippedLine>, source: Source)
    requires Mirrors(st, s, c)
    requires ApplyBatch(st, Ascending(QtyByProduct(lines).Keys), QtyByProduct(lines), source).Done?
    ensures Reproduces(s, Ship(st, lines, source).value, c)
  {
    hide Reaches, Reproduces, ApplyBatch, P.WriterResult, QtyByProduct;
    var qty := QtyByProduct(lines);
    var w := P.Writer(c, true, map[], [], None);
    Begins(s, c);
    AscendingNoRepeat(Ascending(qty.Keys));
    WholeBatch(s, w, Ascending(qty.Keys), qty, source);
    var v: P.Writer :|
      && v.company == c && Reaches(P.Next, s, At(s, v))
      && P.WriterResult(P.StockOf(s, c), v) == ApplyBatch(st, Ascending(qty.Keys), qty, source).value;
    Commits(s, v);
  }

  // ---------------------------------------------------------------------------
  // A rebuild alone
  // ---------------------------------------------------------------------------

  function Rebuilding(s: P.State, r: P.Rebuilder): P.State { s.(rebuilders := map[TX := r]) }

  lemma GoesOn(s: P.State, r: P.Rebuilder, a: P.RebuildAction, next: P.Rebuilder)
    requires Reaches(P.Next, s, Rebuilding(s, r)) && P.RebuilderNext(Rebuilding(s, r), TX, r, a) == Some(next)
    ensures Reaches(P.Next, s, Rebuilding(s, next))
  {
    hide P.RebuilderNext, Reaches;
    Then(P.Next, s, Rebuilding(s, r), P.Rework(TX, a));
    assert P.Next(Rebuilding(s, r), P.Rework(TX, a)) == Rebuilding(s, next);
  }

  ghost predicate Ascends(q: seq<Id>) {
    forall i, j :: 0 <= i < j < |q| ==> q[i] < q[j]
  }

  /** A rebuild that has locked the first `k` of the existing rows. */
  function Locked(c: Id, onHand: map<Id, int>, q: seq<Id>, k: nat): P.Rebuilder
    requires k <= |q| && forall p :: p in q ==> p in onHand
  {
    P.Rebuilder(c, true, map p | p in q[..k] :: onHand[p], None, {})
  }

  lemma OneRowLocked(s: P.State, c: Id, q: seq<Id>, k: nat)
    requires s.writers == map[] && 0 < k <= |q| && Ascends(q)
    requires forall p :: p in q ==> p in P.StockOf(s, c).onHand
    ensures var r, next := Locked(c, P.StockOf(s, c).onHand, q, k - 1), Locked(c, P.StockOf(s, c).onHand, q, k);
            P.RebuilderNext(Rebuilding(s, r), TX, r, P.LockExisting(q[k - 1])) == Some(next)
  {
    var onHand, p := P.StockOf(s, c).onHand, q[k - 1];
    var r, next := Locked(c, onHand, q, k - 1), Locked(c, onHand, q, k);
    assert q[..k] == q[..k - 1] + [p];
    assert r.rows[p := onHand[p]] == next.rows;
    assert P.StockOf(Rebuilding(s, r), c) == P.StockOf(s, c);
  }

  lemma {:induction false} LocksRows(s: P.State, c: Id, q: seq<Id>, k: nat)
    requires s.writers == map[] && s.rebuilders == map[] && k <= |q| && Ascends(q)
    requires forall p :: p in q ==> p in P.StockOf(s, c).onHand
    ensures Reaches(P.Next, s, Rebuilding(s, Locked(c, P.StockOf(s, c).onHand, q, k)))
    decreases k
  {
    hide Reaches, P.StockOf, P.RebuilderNext, Ascends;
    if k == 0 {
      BeginsRebuild(s, c);
      assert q[..0] == [];
      assert Locked(c, P.StockOf(s, c).onHand, q, 0) == P.Rebuilder(c, true, map[], None, {});
    } else {
      LocksRows(s, c, q, k - 1);
      OneRowLocked(s, c, q, k);
      var onHand := P.StockOf(s, c).onHand;
      GoesOn(s, Locked(c, onHand, q, k - 1), P.LockExisting(q[k - 1]), Locked(c, onHand, q, k));
    }
  }

  lemma BeginsRebuild(s: P.State, c: Id)
    requires s.writers == map[] && s.rebuilders == map[]
    ensures Reaches(P.Next, s, Rebuilding(s, P.Rebuilder(c, true, map[], None, {})))
  {
    hide Reaches;
    var r := P.Rebuilder(c, false, map[], None, {});
    Stays(P.Next, s);
    Then(P.Next, s, s, P.BeginRebuild(TX, c));
    assert P.Next(s, P.BeginRebuild(TX, c)) == Rebuilding(s, r);
    GoesOn(s, r, P.AcquireExclusive, r.(exclusive := true));
  }

  /** With every existing row locked it sums the moves. */
  lemma SumsMoves(s: P.State, c: Id)
    requires s.writers == map[] && s.rebuilders == map[]
    ensures var st := P.StockOf(s, c);
            Reaches(P.Next, s, Rebuilding(s, P.Rebuilder(c, true, st.onHand, Some(MovedTotals(st.moves)), {})))
  {
    hide Reaches, MovedTotals, P.StockOf, P.RebuilderNext;
    var st := P.StockOf(s, c);
    var q := Ascending(st.onHand.Keys);
    LocksRows(s, c, q, |q|);
    assert q[..|q|] == q;
    var r := Locked(c, st.onHand, q, |q|);
    assert r.rows == st.onHand;
    SumIsRead(s, r);
    GoesOn(s, r, P.SumMoves, r.(totals := Some(MovedTotals(st.moves))));
  }

  lemma SumIsRead(s: P.State, r: P.Rebuilder)
    requires r.exclusive && r.totals == None && P.StockOf(s, r.company).onHand == r.rows
    ensures P.RebuilderNext(Rebuilding(s, r), TX, r, P.SumMoves) ==
              Some(r.(totals := Some(MovedTotals(P.StockOf(s, r.company).moves))))
  {
    hide MovedTotals;
  }

  function RowsAfter(onHand: map<Id, int>, totals: map<Id, int>, q: seq<Id>): map<Id, int> {
    if q == [] then onHand else
    RowsAfter(onHand, totals, q[..|q| - 1])[q[|q| - 1] := OnHand(totals, q[|q| - 1])]
  }

  lemma {:induction false} RowsAfterAll(onHand: map<Id, int>, totals: map<Id, int>, q: seq<Id>)
    ensures forall p :: p in RowsAfter(onHand, totals, q) <==> p in onHand || p in q
    ensures forall p :: p in q ==> RowsAfter(onHand, totals, q)[p] == OnHand(totals, p)
  {
    if q != [] {
      RowsAfterAll(onHand, totals, q[..|q| - 1]);
      assert q == q[..|q| - 1] + [q[|q| - 1]];
    }
  }

  /** A rebuild that has overwritten the first `k` of all rows. */
  function Overwritten(c: Id, onHand: map<Id, int>, totals: map<Id, int>, q: seq<Id>, k: nat): P.Rebuilder
    requires k <= |q|
  {
    P.Rebuilder(c, true, RowsAfter(onHand, totals, q[..k]), Some(totals), set p | p in q[..k])
  }

  lemma OneRowOverwritten(s: P.State, c: Id, onHand: map<Id, int>, totals: map<Id, int>, q: seq<Id>, k: nat)
    requires 0 < k <= |q|
    requires (q[k - 1] in onHand || q[k - 1] in totals) && OnHand(totals, q[k - 1]) >= 0
    ensures var r, next := Overwritten(c, onHand, totals, q, k - 1), Overwritten(c, onHand, totals, q, k);
            P.RebuilderNext(Rebuilding(s, r), TX, r, P.Overwrite(q[k - 1])) == Some(next)
  {
    hide OnHand;
    var r, p := Overwritten(c, onHand, totals, q, k - 1), q[k - 1];
    assert q[..k][..k - 1] == q[..k - 1];
    RowsAfterAll(onHand, totals, q[..k - 1]);
    assert r.written + {p} == Overwritten(c, onHand, totals, q, k).written;
  }

  lemma {:induction false} OverwritesRows(s: P.State, c: Id, st: Stock, totals: map<Id, int>, q: seq<Id>, k: nat)
    requires s.writers == map[] && s.rebuilders == map[] && k <= |q|
    requires st == P.StockOf(s, c) && totals == MovedTotals(st.moves)
    requires forall p :: p in q ==> (p in st.onHand || p in totals) && OnHand(totals, p) >= 0
    ensures Reaches(P.Next, s, Rebuilding(s, Overwritten(c, st.onHand, totals, q, k)))
    decreases k
  {
    hide Reaches, MovedTotals, P.StockOf, P.RebuilderNext, OnHand;
    if k == 0 {
      SumsMoves(s, c);
      assert q[..0] == [];
      assert Overwritten(c, st.onHand, totals, q, 0) == P.Rebuilder(c, true, st.onHand, Some(totals), {});
    } else {
      OverwritesRows(s, c, st, totals, q, k - 1);
      OneRowOverwritten(s, c, st.onHand, totals, q, k);
      GoesOn(s, Overwritten(c, st.onHand, totals, q, k - 1), P.Overwrite(q[k - 1]),
             Overwritten(c, st.onHand, totals, q, k));
    }
  }

  /** From any drift, missing rows included, the rebuild runs to the totals whenever the
      sequential rebuild succeeds. */
  lemma RebuildRuns(s: P.State, st: Stock, c: Id)
    requires Mirrors(st, s, c) && Rebuild(st).Done?
    ensures Reproduces(s, Rebuild(st).value, c)
  {
    hide Reaches, MovedTotals, P.StockOf, OnHand, Rebuild, Reproduces, Overwritten, RebuildsAll;
    var totals := MovedTotals(st.moves);
    var q := Ascending(st.onHand.Keys + totals.Keys);
    NoNegativeTotals(st);
    OverwritesRows(s, c, st, totals, q, |q|);
    OverwrittenIsAll(c, st.onHand, totals, q);
    RebuildCommits(s, st, c, Overwritten(c, st.onHand, totals, q, |q|));
  }

  /** Every row there is has been overwritten with its total. */
  ghost predicate RebuildsAll(r: P.Rebuilder, c: Id, onHand: map<Id, int>, totals: map<Id, int>) {
    && r.company == c && r.totals == Some(totals) && r.written == onHand.Keys + totals.Keys
    && r.rows.Keys == r.written && forall p :: p in r.rows ==> r.rows[p] == OnHand(totals, p)
  }

  lemma OverwrittenIsAll(c: Id, onHand: map<Id, int>, totals: map<Id, int>, q: seq<Id>)
    requires forall p :: p in q <==> p in onHand || p in totals
    ensures RebuildsAll(Overwritten(c, onHand, totals, q, |q|), c, onHand, totals)
  {
    hide OnHand;
    assert q[..|q|] == q;
    RowsAfterAll(onHand, totals, q);
  }

  lemma NoNegativeTotals(st: Stock)
    requires Rebuild(st).Done?
    ensures forall p :: OnHand(MovedTotals(st.moves), p) >= 0
  {
    forall p ensures OnHand(MovedTotals(st.moves), p) >= 0 {
      if p in MovedTotals(st.moves) { assert Totals(st)[p] == MovedTotals(st.moves)[p]; }
    }
  }

  lemma RebuildCommits(s: P.State, st: Stock, c: Id, r: P.Rebuilder)
    requires Mirrors(st, s, c) && Rebuild(st).Done? && Reaches(P.Next, s, Rebuilding(s, r))
    requires RebuildsAll(r, c, st.onHand, MovedTotals(st.moves))
    ensures Reproduces(s, Rebuild(st).value, c)
  {
    hide Reaches, MovedTotals, Moved, OnHand;
    Then(P.Next, s, Rebuilding(s, r), P.CommitRebuild(TX));
    var u := P.Next(Rebuilding(s, r), P.CommitRebuild(TX));
    assert st.onHand + r.rows == r.rows;
    OverwrittenIsTotals(st, r.rows);
    assert Rebuilding(s, r).rebuilders - {TX} == map[];
    assert Mirrors(Rebuild(st).value, u, c);
  }

  // ---------------------------------------------------------------------------
  // Every service call
  // ---------------------------------------------------------------------------

  lemma OtherServicesMoveNothing(t: Tables, op: Op)
    requires Reached(t) && !op.ShipOp? && !op.AdjustOp?
    ensures Apply(t, op).stock == t.stock
  {
    hide Reached, PostEvent, Ship, Allocate, Post, Reverse, Create, Update, Exposure, PriceForConfirm, MarkConfirmed,
        Rebuild, RebuildAr, Dispatch;
    match op {
      case RebuildStockOp => RebuildsAreIdentity(t);
      case RebuildArOp => RebuildsAreIdentity(t);
      case RedeliverOp(row) => RedeliveryIsHarmless(t, row);
      case _ => DocumentsMoveNothing(t, op);
    }
  }

  lemma DocumentsMoveNothing(t: Tables, op: Op)
    requires !op.ShipOp? && !op.AdjustOp? && !op.RebuildStockOp? && !op.RebuildArOp? && !op.RedeliverOp?
    ensures Apply(t, op).stock == t.stock
  {
    hide PostEvent, Ship, Allocate, Post, Reverse, Create, Update, Exposure, PriceForConfirm, MarkConfirmed,
        AddInvoice, VoidInvoice, AddPayment, VoidPayment, Cancel, Close, OpenNew;
  }

  lemma ServiceIsReproduced(t: Tables, s: P.State, op: Op, c: Id)
    requires Reached(t) && Mirrors(t.stock, s, c)
    ensures Reproduces(s, Apply(t, op).stock, c)
  {
    hide Reaches, Reproduces, Reached, KernelOk, Mirrors, HasMoveFor, PostEvent, ShipmentEvent;
    match op {
      case AdjustOp(product, delta) =>
        if Perform(t, op).Done? {
          AdjustRuns(s, t.stock, c, product, delta);
        } else {
          NothingRuns(s, t.stock, c);
        }
      case ShipOp(id, catalog, at) =>
        if Perform(t, op).Done? {
          var e := ShipmentEvent(t.orders, id, catalog, at).value;
          ReachedIsOk(t);
          ShipmentFacts(t, id, catalog, at);
          FirstDeliveryOutcome(t.stock, e.lines, KeyOf(e));
          ShipmentRuns(s, t.stock, c, e.lines, KeyOf(e));
        } else {
          NothingRuns(s, t.stock, c);
        }
      case _ =>
        OtherServicesMoveNothing(t, op);
        NothingRuns(s, t.stock, c);
    }
  }

  lemma {:induction false} FoldIsRun(s: P.State, actions: seq<P.Action>)
    ensures Fold(P.Next, s, actions) == P.Run(s, actions)
    decreases |actions|
  {
    if actions != [] { FoldIsRun(P.Next(s, actions[0]), actions[1..]); }
  }

  /** Whatever a service does to the stock of a reached company, some schedule of the
      protocol does too. */
  lemma EveryServiceRuns(t: Tables, s: P.State, op: Op, c: Id)
    requires Reached(t) && Mirrors(t.stock, s, c)
    ensures exists actions :: Mirrors(Apply(t, op).stock, P.Run(s, actions), c)
  {
    hide Reached, Mirrors, Apply;
    ServiceIsReproduced(t, s, op, c);
    var u :| Reaches(P.Next, s, u) && Mirrors(Apply(t, op).stock, u, c);
    var actions: seq<P.Action> :| Fold(P.Next, s, actions) == u;
    FoldIsRun(s, actions);
  }
}
