/** Journal numbering and period close under concurrency. Any number of posting and
    closing transactions interleave step by step; the database contributes share locks on
    period rows, exclusive locks on counter rows, savepoints, and reads of the last
    committed rows. */
module NumberingProtocol {
  import opened Common
  import opened Ledger

  type TxId = nat

  datatype Counter = Counter(company: Id, year: int)
  datatype Period = Period(company: Id, month: Month)

  /** A numbered entry: its company, the month it is dated in, and its number. */
  datatype Numbered = Numbered(period: Period, number: nat)

  function CounterOf(p: Period): Counter { Counter(p.company, p.month.year) }

  /** What has been committed, in commit order. */
  datatype Event = Posted(entry: Numbered) | PeriodClosed(period: Period)

  /** `next` holds the locked counter rows with the session's value; `inHand` is a number
      taken and not yet used by an inserted entry. */
  datatype Work = Work(periods: set<Period>, next: map<Counter, nat>, inHand: Option<Numbered>, entries: seq<Numbered>)

  datatype Poster = Poster(now: Work, saved: Option<Work>)

  /** A close holds its period row for update, or still waits for it. */
  datatype Closer = Closer(period: Period, locked: bool)

  datatype State = State(counters: map<Counter, nat>, periods: map<Period, PeriodStatus>, log: seq<Event>,
                         posters: map<TxId, Poster>, closers: map<TxId, Closer>)

  datatype PosterAction =
    | LockPeriod(period: Period)
    | LockCounter(counter: Counter)
    | TakeNumber(period: Period)
    | InsertEntry
    | Savepoint
    | RollbackToSavepoint

  datatype Action =
    | BeginPosting(t: TxId)
    | Proceed(t: TxId, step: PosterAction)
    | CommitPosting(t: TxId)
    | AbortPosting(t: TxId)
    | BeginClose(t: TxId, period: Period)
    | LockForClose(t: TxId)
    | CommitClose(t: TxId)
    | AbortClose(t: TxId)
    | OpenPeriod(period: Period)

  // ---------------------------------------------------------------------------
  // Steps
  // ---------------------------------------------------------------------------

  function NextNumber(counters: map<Counter, nat>, k: Counter): nat {
    if k in counters then counters[k] else 1
  }

  predicate NoCloser(s: State, p: Period) {
    forall t :: t in s.closers && s.closers[t].period == p ==> !s.closers[t].locked
  }

  predicate NoPoster(s: State, p: Period) {
    forall t :: t in s.posters ==> p !in s.posters[t].now.periods
  }

  predicate CounterFree(s: State, k: Counter) {
    forall t :: t in s.posters ==> k !in s.posters[t].now.next
  }

  predicate StillOpen(s: State, p: Period) {
    p in s.periods && s.periods[p] == Open
  }

  function PosterNext(s: State, x: Poster, a: PosterAction): Option<Poster> {
    var w := x.now;
    match a
    case LockPeriod(p) =>
      if NoCloser(s, p) && StillOpen(s, p) then Some(x.(now := w.(periods := w.periods + {p}))) else None
    case LockCounter(k) =>
      if CounterFree(s, k) then Some(x.(now := w.(next := w.next[k := NextNumber(s.counters, k)]))) else None
    case TakeNumber(p) =>
      var k := CounterOf(p);
      if p in w.periods && k in w.next && w.inHand == None
      then Some(x.(now := w.(next := w.next[k := w.next[k] + 1], inHand := Some(Numbered(p, w.next[k]))))) else None
    case InsertEntry =>
      if w.inHand.Some? then Some(x.(now := w.(inHand := None, entries := w.entries + [w.inHand.value]))) else None
    case Savepoint => if w.inHand == None then Some(x.(saved := Some(w))) else None
    case RollbackToSavepoint => if x.saved.Some? then Some(Poster(x.saved.value, None)) else None
  }

  function PostedAll(entries: seq<Numbered>): seq<Event> {
    seq(|entries|, i requires 0 <= i < |entries| => Posted(entries[i]))
  }

  function Next(s: State, a: Action): State {
    match a
    case BeginPosting(t) =>
      if t in s.posters then s else s.(posters := s.posters[t := Poster(Work({}, map[], None, []), None)])
    case Proceed(t, step) =>
      if t !in s.posters || PosterNext(s, s.posters[t], step) == None then s
      else s.(posters := s.posters[t := PosterNext(s, s.posters[t], step).value])
    case CommitPosting(t) =>
      if t !in s.posters || s.posters[t].now.inHand.Some? then s else
      var w := s.posters[t].now;
      s.(counters := s.counters + w.next, log := s.log + PostedAll(w.entries), posters := s.posters - {t})
    case AbortPosting(t) => s.(posters := s.posters - {t})
    case BeginClose(t, p) => if t in s.closers then s else s.(closers := s.closers[t := Closer(p, false)])
    case LockForClose(t) =>
      if t !in s.closers || !NoCloser(s, s.closers[t].period) || !NoPoster(s, s.closers[t].period) then s
      else s.(closers := s.closers[t := s.closers[t].(locked := true)])
    case CommitClose(t) =>
      if t !in s.closers || !s.closers[t].locked || s.closers[t].period !in s.periods then s else
      var p := s.closers[t].period;
      s.(periods := s.periods[p := Closed], log := s.log + [PeriodClosed(p)], closers := s.closers - {t})
    case AbortClose(t) => s.(closers := s.closers - {t})
    case OpenPeriod(p) => if p in s.periods then s else s.(periods := s.periods[p := Open])
  }

  function Run(s: State, actions: seq<Action>): State
    decreases |actions|
  {
    if actions == [] then s else Run(Next(s, actions[0]), actions[1..])
  }

  // ---------------------------------------------------------------------------
  // Invariant
  // ---------------------------------------------------------------------------

  /** The numbers of counter `k`, in order. */
  function NumbersOf(entries: seq<Numbered>, k: Counter): seq<nat> {
    if entries == [] then [] else
    var last := entries[|entries| - 1];
    NumbersOf(entries[..|entries| - 1], k) + if CounterOf(last.period) == k then [last.number] else []
  }

  function EntriesIn(log: seq<Event>): seq<Numbered> {
    if log == [] then [] else
    EntriesIn(log[..|log| - 1]) + match log[|log| - 1] { case Posted(e) => [e] case PeriodClosed(_) => [] }
  }

  /** [1, 2, ..., m - 1] followed by the pending numbers is [1, 2, ..., n - 1]. */
  ghost predicate Continues(m: nat, pending: seq<nat>, n: nat) {
    CountingTo(m) + pending == CountingTo(n)
  }

  function Taken(w: Work): seq<Numbered> {
    w.entries + if w.inHand.Some? then [w.inHand.value] else []
  }

  /** The work's pending numbers continue the committed ones without a gap, for counters
      it has locked; its entries are in periods it has locked. */
  ghost predicate WorkOk(counters: map<Counter, nat>, w: Work) {
    && (forall k :: k in w.next ==>
          w.next[k] >= 1 && Continues(NextNumber(counters, k), NumbersOf(Taken(w), k), w.next[k]))
    && (forall e :: e in Taken(w) ==> e.period in w.periods && CounterOf(e.period) in w.next)
  }

  ghost predicate PosterOk(counters: map<Counter, nat>, x: Poster) {
    && WorkOk(counters, x.now)
    && (x.saved.Some? ==>
          && WorkOk(counters, x.saved.value)
          && x.saved.value.periods <= x.now.periods && x.saved.value.next.Keys <= x.now.next.Keys)
  }

  ghost predicate PostersOk(s: State) {
    forall t :: t in s.posters ==> PosterOk(s.counters, s.posters[t])
  }

  ghost predicate CountersApart(s: State) {
    forall t, u :: t in s.posters && u in s.posters && t != u ==>
      s.posters[t].now.next.Keys !! s.posters[u].now.next.Keys
  }

  /** A period somebody posts into is open, and nobody is closing it. */
  ghost predicate PeriodsHeld(s: State) {
    forall t, p :: t in s.posters && p in s.posters[t].now.periods ==> StillOpen(s, p) && NoCloser(s, p)
  }

  ghost predicate CommittedGapless(s: State) {
    forall k ::
      NextNumber(s.counters, k) >= 1 && NumbersOf(EntriesIn(s.log), k) == CountingTo(NextNumber(s.counters, k))
  }

  ghost predicate ClosedStay(s: State) {
    forall i :: 0 <= i < |s.log| && s.log[i].PeriodClosed? ==>
      s.log[i].period in s.periods && s.periods[s.log[i].period] == Closed
  }

  /** No entry was committed into a period after the commit of a close of it. */
  ghost predicate NothingAfterClose(log: seq<Event>) {
    forall i, j :: 0 <= i < j < |log| && log[i].PeriodClosed? && log[j].Posted? ==> log[j].entry.period != log[i].period
  }

  ghost predicate Invariant(s: State) {
    && PostersOk(s) && CountersApart(s) && PeriodsHeld(s)
    && CommittedGapless(s) && ClosedStay(s) && NothingAfterClose(s.log)
  }

  // ---------------------------------------------------------------------------
  // Numbers
  // ---------------------------------------------------------------------------

  lemma NumbersAppend(entries: seq<Numbered>, e: Numbered, k: Counter)
    ensures NumbersOf(entries + [e], k) == NumbersOf(entries, k) + if CounterOf(e.period) == k then [e.number] else []
  {
    assert (entries + [e])[..|entries|] == entries;
  }

  lemma {:induction false} NumbersConcat(x: seq<Numbered>, y: seq<Numbered>, k: Counter)
    ensures NumbersOf(x + y, k) == NumbersOf(x, k) + NumbersOf(y, k)
  {
    if y == [] {
      assert x + y == x;
    } else {
      var front, last := y[..|y| - 1], y[|y| - 1];
      assert x + y == (x + front) + [last];
      NumbersAppend(x + front, last, k);
      NumbersConcat(x, front, k);
    }
  }

  lemma {:induction false} NumbersAbsent(entries: seq<Numbered>, k: Counter)
    requires forall e :: e in entries ==> CounterOf(e.period) != k
    ensures NumbersOf(entries, k) == []
  {
    if entries != [] {
      assert entries[|entries| - 1] in entries;
      forall e | e in entries[..|entries| - 1] ensures e in entries {}
      NumbersAbsent(entries[..|entries| - 1], k);
    }
  }

  lemma {:induction false} EntriesOfPosted(log: seq<Event>, entries: seq<Numbered>)
    ensures EntriesIn(log + PostedAll(entries)) == EntriesIn(log) + entries
  {
    if entries == [] {
      assert log + PostedAll(entries) == log;
    } else {
      var front := entries[..|entries| - 1];
      EntriesOfPosted(log, front);
      var all := log + PostedAll(entries);
      assert all[..|all| - 1] == log + PostedAll(front);
      assert entries == front + [entries[|entries| - 1]];
    }
  }

  lemma TakeContinues(m: nat, pending: seq<nat>, n: nat)
    requires Continues(m, pending, n) && n >= 1
    ensures Continues(m, pending + [n], n + 1)
  {
    assert CountingTo(m) + (pending + [n]) == (CountingTo(m) + pending) + [n];
  }

  // ---------------------------------------------------------------------------
  // Steps of one posting transaction
  // ---------------------------------------------------------------------------

  lemma TakeStep(counters: map<Counter, nat>, w: Work, p: Period)
    requires WorkOk(counters, w) && p in w.periods && CounterOf(p) in w.next && w.inHand == None
    ensures var k := CounterOf(p);
            WorkOk(counters, w.(next := w.next[k := w.next[k] + 1], inHand := Some(Numbered(p, w.next[k]))))
  {
    hide Continues, NumbersOf;
    var k := CounterOf(p);
    var after := w.(next := w.next[k := w.next[k] + 1], inHand := Some(Numbered(p, w.next[k])));
    assert Taken(w) == w.entries;
    assert Taken(after) == w.entries + [Numbered(p, w.next[k])];
    forall j | j in after.next
      ensures after.next[j] >= 1 && Continues(NextNumber(counters, j), NumbersOf(Taken(after), j), after.next[j])
    {
      TakeAt(NextNumber(counters, j), w.entries, p, w.next[k], j, w.next[j]);
    }
  }

  /** Taking the next number of its own counter continues that one and no other. */
  lemma TakeAt(m: nat, entries: seq<Numbered>, p: Period, number: nat, j: Counter, next: nat)
    requires Continues(m, NumbersOf(entries, j), next) && next >= 1 && (j == CounterOf(p) ==> number == next)
    ensures Continues(m, NumbersOf(entries + [Numbered(p, number)], j), if j == CounterOf(p) then next + 1 else next)
  {
    hide Continues, NumbersOf;
    NumbersAppend(entries, Numbered(p, number), j);
    if j == CounterOf(p) {
      TakeContinues(m, NumbersOf(entries, j), next);
    } else {
      assert NumbersOf(entries, j) + [] == NumbersOf(entries, j);
    }
  }

  lemma CounterStep(counters: map<Counter, nat>, w: Work, k: Counter)
    requires WorkOk(counters, w) && k !in w.next && NextNumber(counters, k) >= 1
    ensures WorkOk(counters, w.(next := w.next[k := NextNumber(counters, k)]))
  {
    var after := w.(next := w.next[k := NextNumber(counters, k)]);
    NumbersAbsent(Taken(w), k);
    assert CountingTo(NextNumber(counters, k)) + [] == CountingTo(NextNumber(counters, k));
  }

  lemma PeriodStep(counters: map<Counter, nat>, w: Work, p: Period)
    requires WorkOk(counters, w)
    ensures WorkOk(counters, w.(periods := w.periods + {p}))
  {
    assert Taken(w.(periods := w.periods + {p})) == Taken(w);
  }

  lemma InsertStep(counters: map<Counter, nat>, w: Work)
    requires WorkOk(counters, w) && w.inHand.Some?
    ensures WorkOk(counters, w.(inHand := None, entries := w.entries + [w.inHand.value]))
  {
    assert Taken(w.(inHand := None, entries := w.entries + [w.inHand.value])) == Taken(w);
  }

  lemma PosterStep(s: State, t: TxId, a: PosterAction)
    requires PostersOk(s) && CommittedGapless(s) && t in s.posters && PosterNext(s, s.posters[t], a).Some?
    ensures var x, y := s.posters[t], PosterNext(s, s.posters[t], a).value;
            && PosterOk(s.counters, y)
            && (forall k :: k in y.now.next ==> k in x.now.next || CounterFree(s, k))
            && (forall p :: p in y.now.periods ==> p in x.now.periods || (StillOpen(s, p) && NoCloser(s, p)))
  {
    hide WorkOk, StillOpen, NoCloser, NumbersOf, EntriesIn;
    var x := s.posters[t];
    assert PosterOk(s.counters, x);
    match a {
      case LockPeriod(p) => PeriodStep(s.counters, x.now, p);
      case LockCounter(k) => assert k !in x.now.next; CounterStep(s.counters, x.now, k);
      case TakeNumber(p) => TakeStep(s.counters, x.now, p);
      case InsertEntry => InsertStep(s.counters, x.now);
      case _ =>
    }
  }

  lemma PosterMovesOn(s: State, t: TxId, a: PosterAction)
    requires Invariant(s)
    ensures Invariant(Next(s, Proceed(t, a)))
  {
    hide PosterOk, PosterNext, StillOpen, CommittedGapless, NothingAfterClose;
    if t in s.posters && PosterNext(s, s.posters[t], a).Some? {
      PosterStep(s, t, a);
      SameCommitted(s, Next(s, Proceed(t, a)));
      var after := Next(s, Proceed(t, a));
      forall u, p | u in after.posters && p in after.posters[u].now.periods
        ensures StillOpen(after, p) && NoCloser(after, p)
      {
        SameOpen(s, after, p);
      }
    }
  }

  lemma SameOpen(s: State, u: State, p: Period)
    requires s.periods == u.periods
    ensures StillOpen(s, p) <==> StillOpen(u, p)
  {
  }

  /** Posters hold no more periods, closers lock no more of what posters hold, and open
      periods stay open as long as a poster holds them. */
  lemma PeriodsFrame(s: State, u: State)
    requires PeriodsHeld(s)
    requires forall t, p :: t in u.posters && p in u.posters[t].now.periods ==>
               t in s.posters && p in s.posters[t].now.periods
    requires forall c :: c in u.closers && u.closers[c].locked ==>
               (c in s.closers && s.closers[c] == u.closers[c]) || NoPoster(s, u.closers[c].period)
    requires forall p :: StillOpen(s, p) ==> StillOpen(u, p) || NoPoster(s, p)
    ensures PeriodsHeld(u)
  {
    forall t, p | t in u.posters && p in u.posters[t].now.periods ensures StillOpen(u, p) && NoCloser(u, p) {
      assert StillOpen(s, p) && NoCloser(s, p) && !NoPoster(s, p);
    }
  }

  lemma SameCommitted(s: State, u: State)
    requires CommittedGapless(s) && s.counters == u.counters && s.log == u.log
    ensures CommittedGapless(u)
  {
  }

  // ---------------------------------------------------------------------------
  // Commits
  // ---------------------------------------------------------------------------

  /** Committing appends the pending numbers right after the committed ones. */
  lemma CommitContinues(s: State, w: Work, k: Counter)
    requires CommittedGapless(s) && WorkOk(s.counters, w) && w.inHand == None
    ensures var counters := s.counters + w.next;
            && NextNumber(counters, k) >= 1
            && NumbersOf(EntriesIn(s.log + PostedAll(w.entries)), k) == CountingTo(NextNumber(counters, k))
  {
    EntriesOfPosted(s.log, w.entries);
    NumbersConcat(EntriesIn(s.log), w.entries, k);
    assert Taken(w) == w.entries;
    assert NextNumber(s.counters, k) >= 1;
    if k !in w.next { NumbersAbsent(w.entries, k); }
  }

  lemma WorkElsewhere(counters: map<Counter, nat>, next: map<Counter, nat>, w: Work)
    requires WorkOk(counters, w) && w.next.Keys !! next.Keys
    ensures WorkOk(counters + next, w)
  {
    hide Continues;
    forall k | k in w.next ensures NextNumber(counters + next, k) == NextNumber(counters, k) {}
  }

  lemma OtherPostersOk(s: State, t: TxId, u: TxId)
    requires PostersOk(s) && CountersApart(s) && t in s.posters && u in s.posters && t != u
    ensures PosterOk(s.counters + s.posters[t].now.next, s.posters[u])
  {
    hide WorkOk;
    var next, x := s.posters[t].now.next, s.posters[u];
    WorkElsewhere(s.counters, next, x.now);
    if x.saved.Some? { WorkElsewhere(s.counters, next, x.saved.value); }
  }

  lemma CommitKeepsLog(s: State, w: Work)
    requires ClosedStay(s) && NothingAfterClose(s.log)
    requires forall e :: e in w.entries ==> StillOpen(s, e.period)
    ensures NothingAfterClose(s.log + PostedAll(w.entries))
    ensures ClosedStay(s.(log := s.log + PostedAll(w.entries)))
  {
    var log := s.log + PostedAll(w.entries);
    forall i, j | 0 <= i < j < |log| && log[i].PeriodClosed? && log[j].Posted?
      ensures log[j].entry.period != log[i].period
    {
      if j >= |s.log| { assert w.entries[j - |s.log|] in w.entries; }
    }
  }

  lemma CommitPostingStep(s: State, t: TxId)
    requires Invariant(s) && t in s.posters && s.posters[t].now.inHand == None
    ensures Invariant(Next(s, CommitPosting(t)))
  {
    hide PosterOk, NumbersOf, EntriesIn, NothingAfterClose, ClosedStay, StillOpen;
    var after := Next(s, CommitPosting(t));
    var w := s.posters[t].now;
    CommittedWork(s, t);
    forall u | u in after.posters ensures PosterOk(after.counters, after.posters[u]) { OtherPostersOk(s, t, u); }
    forall k
      ensures NextNumber(after.counters, k) >= 1
      ensures NumbersOf(EntriesIn(after.log), k) == CountingTo(NextNumber(after.counters, k))
    {
      CommitContinues(s, w, k);
    }
    CommitKeepsLog(s, w);
    ClosedFrame(s.(log := after.log), after);
    forall p ensures StillOpen(s, p) <==> StillOpen(after, p) { SameOpen(s, after, p); }
    PeriodsFrame(s, after);
  }

  lemma CommittedWork(s: State, t: TxId)
    requires PostersOk(s) && PeriodsHeld(s) && t in s.posters && s.posters[t].now.inHand == None
    ensures WorkOk(s.counters, s.posters[t].now)
    ensures forall e :: e in s.posters[t].now.entries ==> StillOpen(s, e.period)
  {
    hide Continues, StillOpen, NumbersOf;
    var w := s.posters[t].now;
    assert PosterOk(s.counters, s.posters[t]);
    forall e | e in w.entries ensures StillOpen(s, e.period) { assert e in Taken(w); }
  }

  lemma ClosedFrame(s: State, u: State)
    requires ClosedStay(s) && s.log == u.log && s.periods == u.periods
    ensures ClosedStay(u)
  {
  }

  lemma CommitCloseStep(s: State, t: TxId)
    requires Invariant(s) && t in s.closers && s.closers[t].locked && s.closers[t].period in s.periods
    ensures Invariant(Next(s, CommitClose(t)))
  {
    hide PosterOk, NumbersOf, CommittedGapless;
    var after := Next(s, CommitClose(t));
    CloseKeepsNumbers(s, after, s.closers[t].period);
    PeriodsFrame(s, after);
  }

  lemma CloseKeepsNumbers(s: State, u: State, p: Period)
    requires CommittedGapless(s) && s.counters == u.counters && u.log == s.log + [PeriodClosed(p)]
    ensures CommittedGapless(u)
  {
    assert u.log[..|u.log| - 1] == s.log;
    assert EntriesIn(u.log) == EntriesIn(s.log) + [] == EntriesIn(s.log);
  }

  lemma NewWorkIsOk(counters: map<Counter, nat>)
    ensures PosterOk(counters, Poster(Work({}, map[], None, []), None))
  {
  }

  lemma PostingBegins(s: State, t: TxId)
    requires Invariant(s)
    ensures Invariant(Next(s, BeginPosting(t)))
  {
    hide PosterOk, CommittedGapless, NothingAfterClose, StillOpen, ClosedStay;
    var after := Next(s, BeginPosting(t));
    NewWorkIsOk(s.counters);
    SameCommitted(s, after);
    SameClosed(s, after);
    forall p ensures StillOpen(s, p) <==> StillOpen(after, p) { SameOpen(s, after, p); }
    PeriodsFrame(s, after);
  }

  lemma PostingAborts(s: State, t: TxId)
    requires Invariant(s)
    ensures Invariant(Next(s, AbortPosting(t)))
  {
    hide PosterOk, CommittedGapless, NothingAfterClose, StillOpen, ClosedStay;
    var after := Next(s, AbortPosting(t));
    SameCommitted(s, after);
    SameClosed(s, after);
    forall p ensures StillOpen(s, p) <==> StillOpen(after, p) { SameOpen(s, after, p); }
    PeriodsFrame(s, after);
  }

  lemma SameClosed(s: State, u: State)
    requires ClosedStay(s) && s.log == u.log && s.periods == u.periods
    ensures ClosedStay(u)
  {
  }

  lemma ClosesComeAndGo(s: State, a: Action)
    requires Invariant(s) && (a.BeginClose? || a.LockForClose? || a.AbortClose? || a.OpenPeriod?)
    ensures Invariant(Next(s, a))
  {
    hide PosterOk, CommittedGapless, NothingAfterClose, PeriodsHeld, PostersOk, CountersApart;
    var after := Next(s, a);
    SameCommitted(s, after);
    PeriodsFrame(s, after);
    SamePosters(s, after);
  }

  lemma SamePosters(s: State, u: State)
    requires PostersOk(s) && CountersApart(s) && s.posters == u.posters && s.counters == u.counters
    ensures PostersOk(u) && CountersApart(u)
  {
    hide PosterOk;
  }

  // ---------------------------------------------------------------------------
  // Every run
  // ---------------------------------------------------------------------------

  lemma StepKeeps(s: State, a: Action)
    requires Invariant(s)
    ensures Invariant(Next(s, a))
  {
    hide Invariant;
    match a {
      case Proceed(t, step) => PosterMovesOn(s, t, step);
      case CommitPosting(t) => if t in s.posters && s.posters[t].now.inHand == None { CommitPostingStep(s, t); }
      case CommitClose(t) =>
        if t in s.closers && s.closers[t].locked && s.closers[t].period in s.periods { CommitCloseStep(s, t); }
      case BeginPosting(t) => PostingBegins(s, t);
      case AbortPosting(t) => PostingAborts(s, t);
      case _ => ClosesComeAndGo(s, a);
    }
  }

  lemma {:induction false} RunKeeps(s: State, actions: seq<Action>)
    requires Invariant(s)
    ensures Invariant(Run(s, actions))
    decreases |actions|
  {
    hide Invariant;
    if actions != [] {
      StepKeeps(s, actions[0]);
      RunKeeps(Next(s, actions[0]), actions[1..]);
    }
  }

  const START := State(map[], map[], [], map[], map[])

  /** After any interleaving of posting, aborts, savepoint rollbacks and closes, the
      committed numbers of each company and year are exactly 1, 2, ..., next_no - 1, in
      the order in which their transactions committed. */
  lemma CommittedNumbersAreGapless(actions: seq<Action>, k: Counter)
    ensures var s := Run(START, actions);
            NumbersOf(EntriesIn(s.log), k) == CountingTo(NextNumber(s.counters, k))
  {
    RunKeeps(START, actions);
  }

  /** No entry commits into a period whose close committed earlier. */
  lemma NoEntryAfterClose(actions: seq<Action>, i: nat, j: nat)
    ensures var log := Run(START, actions).log;
            i < j < |log| && log[i].PeriodClosed? && log[j].Posted? ==> log[j].entry.period != log[i].period
  {
    RunKeeps(START, actions);
  }
}
