/** Stock under concurrency: any number of writer and rebuild transactions interleave
    step by step. The database contributes the advisory lock of a company in its shared
    and exclusive form, exclusive row locks held to the end of the transaction,
    savepoints, and reads of the last committed rows. */
module StockProtocol {
  import opened Common
  import opened Inventory

  type TxId = nat

  /** A savepoint: what a partial rollback returns to, locks included. */
  datatype Mark = Mark(shared: bool, rows: map<Id, int>, moves: seq<Move>)

  /** A shipment or adjustment. `rows` are the summary rows it has locked, with the value
      its session holds for each; `moves` are its uncommitted inserts. */
  datatype Writer = Writer(company: Id, shared: bool, rows: map<Id, int>, moves: seq<Move>, saved: Option<Mark>)

  /** A rebuild. `totals` are the sums it read; `written` the rows it has overwritten. */
  datatype Rebuilder = Rebuilder(company: Id, exclusive: bool, rows: map<Id, int>, totals: Option<map<Id, int>>,
      written: set<Id>)

  /** `stocks` is committed data. `sound` names the companies whose summary has to agree
      with the moves: consistent at the start, or rebuilt since. */
  datatype State = State(stocks: map<Id, Stock>, writers: map<TxId, Writer>, rebuilders: map<TxId, Rebuilder>,
      sound: set<Id>)

  datatype WriterAction =
    | AcquireShared
    | LockRow(product: Id)
    | WriteMove(product: Id, delta: int, source: Option<Source>)
    | Savepoint
    | RollbackToSavepoint

  datatype RebuildAction = AcquireExclusive | LockExisting(product: Id) | SumMoves | Overwrite(product: Id)

  datatype Action =
    | BeginWriter(t: TxId, company: Id)
    | Write(t: TxId, step: WriterAction)
    | CommitWriter(t: TxId)
    | AbortWriter(t: TxId)
    | BeginRebuild(t: TxId, company: Id)
    | Rework(t: TxId, part: RebuildAction)
    | CommitRebuild(t: TxId)
    | AbortRebuild(t: TxId)

  // ---------------------------------------------------------------------------
  // Steps
  // ---------------------------------------------------------------------------

  function StockOf(s: State, c: Id): Stock {
    if c in s.stocks then s.stocks[c] else Stock(map[], [])
  }

  /** The shared lock waits for a holder of the exclusive one. */
  predicate SharedFree(s: State, c: Id) {
    forall r :: r in s.rebuilders && s.rebuilders[r].company == c ==> !s.rebuilders[r].exclusive
  }

  /** The exclusive lock waits for every other holder of either form. */
  predicate ExclusiveFree(s: State, t: TxId, c: Id) {
    && (forall w :: w in s.writers && s.writers[w].company == c ==> !s.writers[w].shared)
    && (forall r :: r in s.rebuilders && r != t && s.rebuilders[r].company == c ==> !s.rebuilders[r].exclusive)
  }

  predicate RowFree(s: State, c: Id, p: Id) {
    && (forall w :: w in s.writers && s.writers[w].company == c ==> p !in s.writers[w].rows)
    && (forall r :: r in s.rebuilders && s.rebuilders[r].company == c ==> p !in s.rebuilders[r].rows)
  }

  /** What one action of a writer makes of it, None while it has to wait. */
  function WriterNext(s: State, w: Writer, a: WriterAction): Option<Writer> {
    match a
    case AcquireShared => if SharedFree(s, w.company) then Some(w.(shared := true)) else None
    case LockRow(p) =>
      if w.shared && RowFree(s, w.company, p)
      then Some(w.(rows := w.rows[p := OnHand(StockOf(s, w.company).onHand, p)])) else None
    case WriteMove(p, delta, source) =>
      if p in w.rows && delta != 0 && w.rows[p] + delta >= 0
      then Some(w.(rows := w.rows[p := w.rows[p] + delta], moves := w.moves + [Move(p, delta, source)])) else None
    case Savepoint => Some(w.(saved := Some(Mark(w.shared, w.rows, w.moves))))
    case RollbackToSavepoint =>
      if w.saved.Some?
      then Some(Writer(w.company, w.saved.value.shared, w.saved.value.rows, w.saved.value.moves, None)) else None
  }

  function RebuilderNext(s: State, t: TxId, r: Rebuilder, a: RebuildAction): Option<Rebuilder> {
    var st := StockOf(s, r.company);
    match a
    case AcquireExclusive => if ExclusiveFree(s, t, r.company) then Some(r.(exclusive := true)) else None
    case LockExisting(p) =>
      if r.exclusive && r.totals == None && p in st.onHand && RowFree(s, r.company, p)
      then Some(r.(rows := r.rows[p := st.onHand[p]])) else None
    case SumMoves =>
      if r.exclusive && r.totals == None && st.onHand.Keys <= r.rows.Keys
      then Some(r.(totals := Some(MovedTotals(st.moves)))) else None
    case Overwrite(p) =>
      if r.totals.Some? && (p in r.rows || p in r.totals.value) && OnHand(r.totals.value, p) >= 0
      then Some(r.(rows := r.rows[p := OnHand(r.totals.value, p)], written := r.written + {p})) else None
  }

  function WriterResult(st: Stock, w: Writer): Stock {
    Stock(st.onHand + w.rows, st.moves + w.moves)
  }

  function RebuilderResult(st: Stock, r: Rebuilder): Stock {
    Stock(st.onHand + r.rows, st.moves)
  }

  predicate RebuildReady(r: Rebuilder) {
    r.totals.Some? && r.rows.Keys + r.totals.value.Keys <= r.written
  }

  /** One step of the interleaving; an action that has to wait has no effect. */
  function Next(s: State, a: Action): State {
    match a
    case BeginWriter(t, c) =>
      if t in s.writers then s else s.(writers := s.writers[t := Writer(c, false, map[], [], None)])
    case BeginRebuild(t, c) =>
      if t in s.rebuilders then s else s.(rebuilders := s.rebuilders[t := Rebuilder(c, false, map[], None, {})])
    case CommitWriter(t) =>
      if t !in s.writers then s else
      var w := s.writers[t];
      s.(stocks := s.stocks[w.company := WriterResult(StockOf(s, w.company), w)], writers := s.writers - {t})
    case CommitRebuild(t) =>
      if t !in s.rebuilders || !RebuildReady(s.rebuilders[t]) then s else
      var r := s.rebuilders[t];
      State(s.stocks[r.company := RebuilderResult(StockOf(s, r.company), r)], s.writers,
            s.rebuilders - {t}, s.sound + {r.company})
    case AbortWriter(t) => s.(writers := s.writers - {t})
    case AbortRebuild(t) => s.(rebuilders := s.rebuilders - {t})
    case Write(t, step) =>
      if t !in s.writers || WriterNext(s, s.writers[t], step) == None then s
      else s.(writers := s.writers[t := WriterNext(s, s.writers[t], step).value])
    case Rework(t, part) =>
      if t !in s.rebuilders || RebuilderNext(s, t, s.rebuilders[t], part) == None then s
      else s.(rebuilders := s.rebuilders[t := RebuilderNext(s, t, s.rebuilders[t], part).value])
  }

  function Run(s: State, actions: seq<Action>): State
    decreases |actions|
  {
    if actions == [] then s else Run(Next(s, actions[0]), actions[1..])
  }

  // ---------------------------------------------------------------------------
  // Invariant
  // ---------------------------------------------------------------------------

  ghost predicate Consistent(st: Stock) {
    forall p :: OnHand(st.onHand, p) == Moved(st.moves, p) >= 0
  }

  /** What a writer holds for a locked row is the committed value plus its own moves. */
  ghost predicate InStep(st: Stock, rows: map<Id, int>, moves: seq<Move>) {
    && (forall p :: p in rows ==> rows[p] == OnHand(st.onHand, p) + Moved(moves, p))
    && (forall p :: p in rows && p in ProductsOf(moves) ==> rows[p] >= 0)
    && ProductsOf(moves) <= rows.Keys
  }

  ghost predicate WriterOk(st: Stock, w: Writer) {
    && InStep(st, w.rows, w.moves)
    && (w.rows != map[] ==> w.shared)
    && (w.saved.Some? ==>
          var m := w.saved.value;
          && InStep(st, m.rows, m.moves)
          && m.rows.Keys <= w.rows.Keys
          && (m.rows != map[] ==> m.shared) && (m.shared ==> w.shared))
  }

  /** A rebuild's totals are still the totals of the committed moves, and it has locked
      every existing row. */
  ghost predicate RebuilderOk(st: Stock, r: Rebuilder) {
    && (!r.exclusive ==> r.rows == map[] && r.totals == None)
    && (r.totals == None ==> r.rows.Keys <= st.onHand.Keys && r.written == {})
    && (r.totals.Some? ==>
          && r.totals.value == MovedTotals(st.moves)
          && st.onHand.Keys <= r.rows.Keys <= st.onHand.Keys + r.totals.value.Keys
          && (forall p :: p in r.written ==> p in r.rows && r.rows[p] == OnHand(r.totals.value, p) >= 0))
  }

  ghost predicate WritersOk(s: State) {
    forall t :: t in s.writers ==> WriterOk(StockOf(s, s.writers[t].company), s.writers[t])
  }

  ghost predicate RebuildersOk(s: State) {
    forall t :: t in s.rebuilders ==> RebuilderOk(StockOf(s, s.rebuilders[t].company), s.rebuilders[t])
  }

  ghost predicate WritersApart(s: State) {
    forall t, u :: t in s.writers && u in s.writers && t != u && s.writers[t].company == s.writers[u].company ==>
      s.writers[t].rows.Keys !! s.writers[u].rows.Keys
  }

  ghost predicate RebuildersAlone(s: State) {
    forall t :: t in s.rebuilders && s.rebuilders[t].exclusive ==> ExclusiveFree(s, t, s.rebuilders[t].company)
  }

  ghost predicate SoundOnes(s: State) {
    forall c :: c in s.sound ==> Consistent(StockOf(s, c))
  }

  ghost predicate Invariant(s: State) {
    WritersOk(s) && RebuildersOk(s) && WritersApart(s) && RebuildersAlone(s) && SoundOnes(s)
  }

  // ---------------------------------------------------------------------------
  // Steps of one transaction
  // ---------------------------------------------------------------------------

  lemma {:induction false} MovedConcat(x: seq<Move>, y: seq<Move>, p: Id)
    ensures Moved(x + y, p) == Moved(x, p) + Moved(y, p)
  {
    if y == [] {
      assert x + y == x;
    } else {
      assert (x + y)[..|x + y| - 1] == x + y[..|y| - 1];
      MovedConcat(x, y[..|y| - 1], p);
    }
  }

  lemma WriteInStep(st: Stock, rows: map<Id, int>, moves: seq<Move>, p: Id, delta: int, source: Option<Source>)
    requires InStep(st, rows, moves) && p in rows && rows[p] + delta >= 0
    ensures InStep(st, rows[p := rows[p] + delta], moves + [Move(p, delta, source)])
  {
    forall q ensures Moved(moves + [Move(p, delta, source)], q) == Moved(moves, q) + if q == p then delta else 0 {
      MovedAppend(moves, Move(p, delta, source), q);
    }
  }

  lemma LockInStep(st: Stock, rows: map<Id, int>, moves: seq<Move>, p: Id)
    requires InStep(st, rows, moves) && p !in rows
    ensures InStep(st, rows[p := OnHand(st.onHand, p)], moves)
  {
    UnmovedIsZero(moves, p);
  }

  lemma WriterStep(s: State, t: TxId, a: WriterAction)
    requires t in s.writers && WriterOk(StockOf(s, s.writers[t].company), s.writers[t])
    requires WriterNext(s, s.writers[t], a).Some?
    ensures var w := WriterNext(s, s.writers[t], a).value;
            && w.company == s.writers[t].company && WriterOk(StockOf(s, w.company), w)
            && (w.shared ==> s.writers[t].shared || SharedFree(s, w.company))
            && (forall p :: p in w.rows ==> p in s.writers[t].rows || RowFree(s, w.company, p))
  {
    hide SharedFree, InStep;
    var w := s.writers[t];
    var st := StockOf(s, w.company);
    match a {
      case LockRow(p) => assert p !in w.rows; LockInStep(st, w.rows, w.moves, p);
      case WriteMove(p, delta, source) => WriteInStep(st, w.rows, w.moves, p, delta, source);
      case _ =>
    }
  }

  lemma WriterMovesOn(s: State, t: TxId, a: WriterAction)
    requires Invariant(s)
    ensures Invariant(Next(s, Write(t, a)))
  {
    hide WriterOk, RebuilderOk, SoundOnes, WriterNext, Consistent;
    if t in s.writers && WriterNext(s, s.writers[t], a).Some? {
      WriterStep(s, t, a);
      SoundFrame(s, Next(s, Write(t, a)));
    }
  }

  lemma SoundFrame(s: State, u: State)
    requires SoundOnes(s) && s.stocks == u.stocks && s.sound == u.sound
    ensures SoundOnes(u)
  {
    hide Consistent;
    forall c | c in u.sound ensures Consistent(StockOf(u, c)) { assert StockOf(u, c) == StockOf(s, c); }
  }

  lemma RebuilderStep(s: State, t: TxId, a: RebuildAction)
    requires t in s.rebuilders && RebuilderOk(StockOf(s, s.rebuilders[t].company), s.rebuilders[t])
    requires RebuilderNext(s, t, s.rebuilders[t], a).Some?
    ensures var r := RebuilderNext(s, t, s.rebuilders[t], a).value;
            && r.company == s.rebuilders[t].company && RebuilderOk(StockOf(s, r.company), r)
            && (r.exclusive ==> s.rebuilders[t].exclusive || ExclusiveFree(s, t, r.company))
  {
    hide ExclusiveFree, RowFree;
  }

  lemma RebuilderMovesOn(s: State, t: TxId, a: RebuildAction)
    requires Invariant(s)
    ensures Invariant(Next(s, Rework(t, a)))
  {
    hide WriterOk, RebuilderOk, SoundOnes, RebuilderNext, Consistent;
    if t in s.rebuilders && RebuilderNext(s, t, s.rebuilders[t], a).Some? {
      RebuilderStep(s, t, a);
      SoundFrame(s, Next(s, Rework(t, a)));
    }
  }

  lemma NothingInStep(st: Stock)
    ensures InStep(st, map[], [])
  {
  }

  lemma NewcomerIsOk(st: Stock, c: Id)
    ensures WriterOk(st, Writer(c, false, map[], [], None)) && RebuilderOk(st, Rebuilder(c, false, map[], None, {}))
  {
    NothingInStep(st);
  }

  lemma TransactionsBegin(s: State, a: Action)
    requires Invariant(s) && (a.BeginWriter? || a.BeginRebuild?)
    ensures Invariant(Next(s, a))
  {
    hide SoundOnes, WriterOk, RebuilderOk, Consistent;
    NewcomerIsOk(StockOf(s, a.company), a.company);
    SoundFrame(s, Next(s, a));
  }

  lemma TransactionsAbort(s: State, a: Action)
    requires Invariant(s) && (a.AbortWriter? || a.AbortRebuild?)
    ensures Invariant(Next(s, a))
  {
    hide SoundOnes, WriterOk, RebuilderOk, Consistent;
    SoundFrame(s, Next(s, a));
  }

  // ---------------------------------------------------------------------------
  // Commits
  // ---------------------------------------------------------------------------

  /** A committed writer moves both sides of the equation alike. */
  lemma WriterCommits(st: Stock, w: Writer, p: Id)
    requires WriterOk(st, w)
    ensures var after := WriterResult(st, w);
            && Moved(after.moves, p) == Moved(st.moves, p) + Moved(w.moves, p)
            && OnHand(after.onHand, p) == OnHand(st.onHand, p) + Moved(w.moves, p)
            && (p !in w.rows ==> Moved(w.moves, p) == 0)
            && (OnHand(st.onHand, p) >= 0 ==> OnHand(after.onHand, p) >= 0)
  {
    MovedConcat(st.moves, w.moves, p);
    if p !in ProductsOf(w.moves) { UnmovedIsZero(w.moves, p); }
  }

  lemma WriterKeepsConsistent(st: Stock, w: Writer)
    requires WriterOk(st, w) && Consistent(st)
    ensures Consistent(WriterResult(st, w))
  {
    hide WriterOk;
    var after := WriterResult(st, w);
    forall p ensures OnHand(after.onHand, p) == Moved(after.moves, p) >= 0 { WriterCommits(st, w, p); }
  }

  /** A committed rebuild leaves exactly what the sequential rebuild prescribes. */
  lemma RebuildCommits(st: Stock, r: Rebuilder)
    requires RebuilderOk(st, r) && RebuildReady(r)
    ensures Rebuild(st) == Done(RebuilderResult(st, r)) && Consistent(RebuilderResult(st, r))
  {
    var rows := st.onHand + r.rows;
    assert rows == r.rows;
    OverwrittenIsTotals(st, rows);
    assert !exists p :: p in rows && rows[p] < 0;
    forall p ensures OnHand(rows, p) == Moved(st.moves, p) >= 0 {
      if p !in rows { UnmovedIsZero(st.moves, p); }
    }
  }

  /** Without the shared lock a writer has nothing to commit. */
  lemma UnlockedWriterIsIdle(st: Stock, w: Writer)
    requires WriterOk(st, w) && !w.shared
    ensures WriterResult(st, w) == st
  {
    assert w.moves != [] ==> w.moves[0] in w.moves && w.moves[0].product in ProductsOf(w.moves);
  }

  lemma InStepElsewhere(st: Stock, w: Writer, rows: map<Id, int>, moves: seq<Move>)
    requires InStep(st, rows, moves) && rows.Keys !! w.rows.Keys
    ensures InStep(WriterResult(st, w), rows, moves)
  {
    forall p | p in rows ensures OnHand(WriterResult(st, w).onHand, p) == OnHand(st.onHand, p) {}
  }

  lemma WriterCommitStep(s: State, t: TxId)
    requires Invariant(s) && t in s.writers
    ensures Invariant(Next(s, CommitWriter(t)))
  {
    hide SoundOnes, InStep, Consistent, WriterResult;
    var after := Next(s, CommitWriter(t));
    var w := s.writers[t];
    var st := StockOf(s, w.company);
    forall u | u in after.writers ensures WriterOk(StockOf(after, s.writers[u].company), s.writers[u]) {
      var v := s.writers[u];
      if v.company == w.company {
        InStepElsewhere(st, w, v.rows, v.moves);
        if v.saved.Some? { InStepElsewhere(st, w, v.saved.value.rows, v.saved.value.moves); }
      }
    }
    forall u | u in after.rebuilders ensures RebuilderOk(StockOf(after, s.rebuilders[u].company), s.rebuilders[u]) {
      if s.rebuilders[u].company == w.company && s.rebuilders[u].exclusive { UnlockedWriterIsIdle(st, w); }
    }
    SoundAfterWriter(s, t);
  }

  lemma SoundAfterWriter(s: State, t: TxId)
    requires WritersOk(s) && SoundOnes(s) && t in s.writers
    ensures SoundOnes(Next(s, CommitWriter(t)))
  {
    hide Consistent, WriterOk, WriterResult;
    var after := Next(s, CommitWriter(t));
    var w := s.writers[t];
    forall c | c in after.sound ensures Consistent(StockOf(after, c)) {
      if c == w.company { WriterKeepsConsistent(StockOf(s, c), w); }
    }
  }

  lemma RebuildCommitStep(s: State, t: TxId)
    requires Invariant(s) && t in s.rebuilders && RebuildReady(s.rebuilders[t])
    ensures Invariant(Next(s, CommitRebuild(t)))
  {
    hide Consistent, WriterOk, RebuilderOk, RebuilderResult, RebuildReady, SoundOnes;
    var after := Next(s, CommitRebuild(t));
    var r := s.rebuilders[t];
    ReadyIsExclusive(StockOf(s, r.company), r);
    forall u | u in after.writers ensures WriterOk(StockOf(after, s.writers[u].company), s.writers[u]) {
      if s.writers[u].company == r.company {
        IdleWriterStays(StockOf(s, r.company), StockOf(after, r.company), s.writers[u]);
      }
    }
    forall u | u in after.rebuilders ensures RebuilderOk(StockOf(after, s.rebuilders[u].company), s.rebuilders[u]) {
      if s.rebuilders[u].company == r.company {
        IdleRebuilderStays(StockOf(s, r.company), StockOf(after, r.company), s.rebuilders[u]);
      }
    }
    SoundAfterRebuild(s, t);
  }

  lemma ReadyIsExclusive(st: Stock, r: Rebuilder)
    requires RebuilderOk(st, r) && RebuildReady(r)
    ensures r.exclusive
  {
  }

  lemma IdleWriterStays(st: Stock, after: Stock, w: Writer)
    requires WriterOk(st, w) && !w.shared
    ensures WriterOk(after, w)
  {
    IdleWriter(st, w);
  }

  lemma IdleRebuilderStays(st: Stock, after: Stock, r: Rebuilder)
    requires RebuilderOk(st, r) && !r.exclusive
    ensures RebuilderOk(after, r)
  {
  }

  lemma SoundAfterRebuild(s: State, t: TxId)
    requires SoundOnes(s) && t in s.rebuilders && RebuildReady(s.rebuilders[t])
    requires RebuilderOk(StockOf(s, s.rebuilders[t].company), s.rebuilders[t])
    ensures SoundOnes(Next(s, CommitRebuild(t)))
  {
    hide Consistent, RebuilderOk, RebuildReady, RebuilderResult;
    var after := Next(s, CommitRebuild(t));
    RebuildCommits(StockOf(s, s.rebuilders[t].company), s.rebuilders[t]);
    forall c | c in after.sound ensures Consistent(StockOf(after, c)) {}
  }

  lemma IdleWriter(st: Stock, w: Writer)
    requires WriterOk(st, w) && !w.shared
    ensures w.rows == map[] && w.moves == []
    ensures w.saved.Some? ==> !w.saved.value.shared && w.saved.value.rows == map[] && w.saved.value.moves == []
  {
    assert w.moves != [] ==> w.moves[0] in w.moves && w.moves[0].product in ProductsOf(w.moves);
    if w.saved.Some? {
      var m := w.saved.value;
      assert m.moves != [] ==> m.moves[0] in m.moves && m.moves[0].product in ProductsOf(m.moves);
    }
  }

  // ---------------------------------------------------------------------------
  // Every run
  // ---------------------------------------------------------------------------

  lemma StepKeeps(s: State, a: Action)
    requires Invariant(s)
    ensures Invariant(Next(s, a))
  {
    hide Invariant;
    match a {
      case BeginWriter(_, _) => TransactionsBegin(s, a);
      case BeginRebuild(_, _) => TransactionsBegin(s, a);
      case AbortWriter(_) => TransactionsAbort(s, a);
      case AbortRebuild(_) => TransactionsAbort(s, a);
      case CommitWriter(t) => if t in s.writers { WriterCommitStep(s, t); }
      case CommitRebuild(t) => if t in s.rebuilders && RebuildReady(s.rebuilders[t]) { RebuildCommitStep(s, t); }
      case Write(t, step) => WriterMovesOn(s, t, step);
      case Rework(t, part) => RebuilderMovesOn(s, t, part);
    }
  }

  lemma {:induction false} RunKeeps(s: State, actions: seq<Action>)
    requires Invariant(s)
    ensures Invariant(Run(s, actions)) && s.sound <= Run(s, actions).sound
    decreases |actions|
  {
    hide Invariant;
    if actions != [] {
      StepKeeps(s, actions[0]);
      RunKeeps(Next(s, actions[0]), actions[1..]);
    }
  }

  /** No transaction is running, and `sound` names consistent companies only. */
  ghost predicate Quiet(s: State) {
    s.writers == map[] && s.rebuilders == map[] && SoundOnes(s)
  }

  /** From a quiet start, in every committed state of every interleaving, a company that
      was consistent, or whose rebuild has committed, has on_hand equal to the sum of the
      committed moves of each product, and never negative. */
  lemma CommittedStockIsConsistent(s: State, actions: seq<Action>, c: Id, p: Id)
    requires Quiet(s) && c in Run(s, actions).sound
    ensures var st := StockOf(Run(s, actions), c);
            OnHand(st.onHand, p) == Moved(st.moves, p) >= 0
  {
    RunKeeps(s, actions);
  }

  /** A rebuild's commit makes its company sound, whatever it found and whoever runs
      beside it. */
  lemma RebuildMakesSound(s: State, actions: seq<Action>, t: TxId, later: seq<Action>, p: Id)
    requires Quiet(s)
    requires t in Run(s, actions).rebuilders && RebuildReady(Run(s, actions).rebuilders[t])
    ensures var c := Run(s, actions).rebuilders[t].company;
            var st := StockOf(Run(Next(Run(s, actions), CommitRebuild(t)), later), c);
            OnHand(st.onHand, p) == Moved(st.moves, p) >= 0
  {
    var now := Run(s, actions);
    RunKeeps(s, actions);
    StepKeeps(now, CommitRebuild(t));
    RunKeeps(Next(now, CommitRebuild(t)), later);
  }
}
