/** The sliding-window login limiter: per peer a queue of recent grants, pruned lazily,
    in a table of bounded size. It is proved against a limiter that keeps every grant. */
module RateLimiter {
  import opened Common
  import opened Sums

  const ATTEMPTS_PER_WINDOW: nat := 10
  const WINDOW_SECONDS: real := 60.0
  const MAX_TRACKED_PEERS: nat := 4096

  type Peer = string
  type Table = map<Peer, seq<real>>

  // ---------------------------------------------------------------------------
  // The keep-all-history limiter
  // ---------------------------------------------------------------------------

  predicate InWindow(t: real, now: real) { now - t < WINDOW_SECONDS }

  /** The grants that fall within the window that ends at `now`. */
  function Recent(grants: seq<real>, now: real): seq<real> {
    if grants == [] then [] else
    (if InWindow(grants[0], now) then [grants[0]] else []) + Recent(grants[1..], now)
  }

  predicate Sorted(q: seq<real>) {
    forall i, j :: 0 <= i < j < |q| ==> q[i] <= q[j]
  }

  predicate UpTo(q: seq<real>, now: real) {
    forall t :: t in q ==> t <= now
  }

  function Ceil(x: real): int { -((-x).Floor) }

  /** Whole seconds until the oldest grant leaves the window, at least one. */
  function RetryAfter(oldest: real, now: real): int {
    var wait := Ceil(WINDOW_SECONDS - (now - oldest));
    if wait < 1 then 1 else wait
  }

  // ---------------------------------------------------------------------------
  // Queues
  // ---------------------------------------------------------------------------

  /** The queue after `popleft` while its head is out of the window. */
  function Drained(q: seq<real>, now: real): seq<real> {
    if q != [] && !InWindow(q[0], now) then Drained(q[1..], now) else q
  }

  function QueueOf(table: Table, p: Peer): seq<real> {
    if p in table then table[p] else []
  }

  function Pruned(table: Table, now: real): Table {
    map p | p in table && Drained(table[p], now) != [] :: Drained(table[p], now)
  }

  lemma {:induction false} AllRecent(q: seq<real>, now: real)
    requires Sorted(q) && (q != [] ==> InWindow(q[0], now))
    ensures Recent(q, now) == q
    decreases |q|
  {
    if |q| > 1 {
      assert q[0] <= q[1];
      AllRecent(q[1..], now);
      assert q == [q[0]] + q[1..];
    } else if |q| == 1 {
      assert q[1..] == [];
    }
  }

  /** On a sorted queue, popping stale heads is filtering by the window. */
  lemma {:induction false} DrainedIsRecent(q: seq<real>, now: real)
    requires Sorted(q)
    ensures Drained(q, now) == Recent(q, now)
    ensures Sorted(Recent(q, now)) && |Recent(q, now)| <= |q|
    ensures forall t :: t in Recent(q, now) ==> t in q
    decreases |q|
  {
    if q != [] && !InWindow(q[0], now) {
      DrainedIsRecent(q[1..], now);
      assert Recent(q, now) == Recent(q[1..], now);
    } else {
      AllRecent(q, now);
    }
  }

  /** What was out of the window stays out of it. */
  lemma {:induction false} RecentLater(q: seq<real>, t: real, now: real)
    requires t <= now
    ensures Recent(Recent(q, t), now) == Recent(q, now)
    ensures |Recent(q, now)| <= |Recent(q, t)| <= |q|
    decreases |q|
  {
    if q != [] {
      RecentLater(q[1..], t, now);
      var rest := Recent(q[1..], t);
      if InWindow(q[0], t) {
        assert ([q[0]] + rest)[0] == q[0] && ([q[0]] + rest)[1..] == rest;
      } else {
        assert Recent(q, t) == rest && Recent(q, now) == Recent(q[1..], now);
      }
    }
  }

  lemma {:induction false} RecentAppend(q: seq<real>, x: real, now: real)
    ensures Recent(q + [x], now) == Recent(q, now) + if InWindow(x, now) then [x] else []
    decreases |q|
  {
    if q == [] {
      assert q + [x] == [x];
      assert [x][1..] == [];
    } else {
      var head := if InWindow(q[0], now) then [q[0]] else [];
      assert (q + [x])[0] == q[0] && (q + [x])[1..] == q[1..] + [x];
      RecentAppend(q[1..], x, now);
      assert Recent(q + [x], now) == head + Recent(q[1..] + [x], now);
      assert Recent(q, now) == head + Recent(q[1..], now);
    }
  }

  /** Pruning is invisible to every later decision, about every peer. */
  lemma PruningIsInvisible(table: Table, p: Peer, t: real, now: real)
    requires t <= now && Sorted(QueueOf(table, p))
    ensures Drained(QueueOf(Pruned(table, t), p), now) == Drained(QueueOf(table, p), now)
  {
    var q := QueueOf(table, p);
    DrainedIsRecent(q, t);
    DrainedIsRecent(q, now);
    RecentLater(q, t, now);
    DrainedIsRecent(Recent(q, t), now);
  }

  lemma CeilBounds(x: real)
    ensures Ceil(x) as real >= x && Ceil(x) as real < x + 1.0
  {
  }

  /** A refused peer that waits the returned time, without a grant in between, is let in:
      by then its oldest counted grant has left the window. */
  lemma WaitingHelps(grants: seq<real>, now: real, later: real)
    requires Sorted(grants) && UpTo(grants, now) && |Recent(grants, now)| == ATTEMPTS_PER_WINDOW
    requires later >= now + RetryAfter(Recent(grants, now)[0], now) as real
    ensures RetryAfter(Recent(grants, now)[0], now) <= 60
    ensures |Recent(grants, later)| < ATTEMPTS_PER_WINDOW
  {
    var q := Recent(grants, now);
    DrainedIsRecent(grants, now);
    RecentLater(grants, now, later);
    CeilBounds(WINDOW_SECONDS - (now - q[0]));
    assert q[0] in grants;
    assert !InWindow(q[0], later);
    assert Recent(q, later) == Recent(q[1..], later);
    RecentLater(q[1..], later, later);
  }

  /** A second less would not have been enough, unless one second is all there is to wait:
      the same ten grants still count. */
  lemma ShorterWaitFails(grants: seq<real>, now: real, later: real)
    requires Sorted(grants) && UpTo(grants, now) && |Recent(grants, now)| == 10
    requires RetryAfter(Recent(grants, now)[0], now) > 1
    requires now <= later <= now + (RetryAfter(Recent(grants, now)[0], now) - 1) as real
    ensures |Recent(grants, later)| == 10
  {
    var q := Recent(grants, now);
    DrainedIsRecent(grants, now);
    RecentLater(grants, now, later);
    CeilBounds(WINDOW_SECONDS - (now - q[0]));
    AllRecent(q, later);
  }

  ghost function WithinMinute(now: real): real -> int {
    t => if now - t < 60.0 then 1 else 0
  }

  /** What the limiter counts: the grants less than sixty seconds old. */
  lemma {:induction false} RecentIsCounted(grants: seq<real>, now: real)
    ensures |Recent(grants, now)| == SumOf(grants, WithinMinute(now))
    decreases |grants|
  {
    if grants != [] { RecentIsCounted(grants[1..], now); }
  }

  // ---------------------------------------------------------------------------
  // The limiter
  // ---------------------------------------------------------------------------

  /** A tracked queue: nonempty, sorted, at most ten long, nothing from the future. */
  ghost predicate QueueOk(q: seq<real>, now: real) {
    q != [] && Sorted(q) && |q| <= ATTEMPTS_PER_WINDOW && UpTo(q, now)
  }

  /** The queue knows every grant of the peer that a decision could still count. */
  ghost predicate Faithful(q: seq<real>, grants: seq<real>, now: real) {
    Sorted(grants) && UpTo(grants, now) && Recent(q, now) == Recent(grants, now)
  }

  ghost predicate QueuesOk(table: Table, now: real) {
    forall p :: p in table ==> QueueOk(table[p], now)
  }

  ghost predicate AllFaithful(table: Table, history: Table, now: real) {
    forall p :: Faithful(QueueOf(table, p), QueueOf(history, p), now)
  }

  lemma FaithfulLater(q: seq<real>, grants: seq<real>, t: real, now: real)
    requires Faithful(q, grants, t) && t <= now
    ensures Faithful(q, grants, now)
  {
    RecentLater(q, t, now);
    RecentLater(grants, t, now);
  }

  class LoginRateLimiter {
    var attempts: Table
    ghost var history: Table    // every grant of a peer since it was last evicted
    ghost var lastCall: real    // the clock at the latest call

    ghost predicate Valid()
      reads this
    {
      && |attempts| <= MAX_TRACKED_PEERS
      && QueuesOk(attempts, lastCall) && AllFaithful(attempts, history, lastCall)
    }

    constructor ()
      ensures Valid() && attempts == map[] && history == map[]
    {
      attempts, history, lastCall := map[], map[], 0.0;
    }

    /** Drains every queue and drops the peers whose queue became empty. */
    method Prune(now: real)
      modifies this`attempts
      ensures attempts == Pruned(old(attempts), now)
    {
      var todo := attempts.Keys;
      while todo != {}
        invariant todo <= old(attempts).Keys
        invariant forall p :: p in todo ==> p in attempts && attempts[p] == old(attempts)[p]
        invariant forall p :: p in attempts && p !in todo ==>
                    p in Pruned(old(attempts), now) && attempts[p] == Pruned(old(attempts), now)[p]
        invariant forall p :: p in Pruned(old(attempts), now) ==> p in attempts
        decreases |todo|
      {
        var peer :| peer in todo;
        var queue := Drain(attempts[peer], now);
        if queue == [] {
          attempts := attempts - {peer};
        } else {
          attempts := attempts[peer := queue];
        }
        todo := todo - {peer};
      }
    }

    static method Drain(queue: seq<real>, now: real) returns (left: seq<real>)
      ensures left == Drained(queue, now)
    {
      left := queue;
      while left != [] && now - left[0] >= WINDOW_SECONDS
        invariant Drained(left, now) == Drained(queue, now)
        decreases |left|
      {
        left := left[1..];
      }
    }

    /** The tracked peer with the oldest head. */
    method OldestPeer() returns (oldest: Peer)
      requires attempts != map[] && forall p :: p in attempts ==> attempts[p] != []
      ensures oldest in attempts && forall p :: p in attempts ==> attempts[oldest][0] <= attempts[p][0]
    {
      oldest :| oldest in attempts;
      var todo := attempts.Keys;
      while todo != {}
        invariant todo <= attempts.Keys && oldest in attempts
        invariant forall p :: p in attempts && p !in todo ==> attempts[oldest][0] <= attempts[p][0]
        decreases |todo|
      {
        var p :| p in todo;
        if attempts[p][0] < attempts[oldest][0] { oldest := p; }
        todo := todo - {p};
      }
    }

    /** Makes room for an untracked peer: prunes a full table, and if that did not help
        evicts the peer with the oldest head. */
    method MakeRoom(now: real) returns (ghost victim: Option<Peer>)
      requires Valid() && lastCall <= now
      modifies this
      ensures Valid() && lastCall == now && |attempts| < MAX_TRACKED_PEERS
      ensures victim == None ==> history == old(history)
      ensures victim.Some? ==>
                && history == old(history) - {victim.value}
                && victim.value in old(attempts) && |old(attempts)| == MAX_TRACKED_PEERS
                && |Pruned(old(attempts), now)| >= MAX_TRACKED_PEERS
                && forall p :: p in Pruned(old(attempts), now) ==>
                     victim.value in Pruned(old(attempts), now)
                     && Pruned(old(attempts), now)[victim.value][0] <= Pruned(old(attempts), now)[p][0]
      ensures forall p :: p in attempts ==> p in old(attempts)
    {
      hide QueuesOk, AllFaithful, Faithful;
      victim := None;
      TimePasses(attempts, history, lastCall, now);
      lastCall := now;
      if |attempts| >= MAX_TRACKED_PEERS {
        PrunedIsValid(attempts, history, now);
        Prune(now);
      }
      if |attempts| >= MAX_TRACKED_PEERS {
        var oldest := OldestPeer();
        victim := Some(oldest);
        EvictionStands(attempts, history, oldest, now);
        attempts := attempts - {oldest};
        history := history - {oldest};
      }
    }

    /** Grants iff fewer than ten of the peer's grants fall within the last 60 seconds. */
    method Allow(peer: Peer, now: real) returns (ok: bool, retryAfter: int, ghost victim: Option<Peer>)
      requires Valid() && lastCall <= now
      modifies this
      ensures Valid() && lastCall == now
      ensures ok <==> SumOf(QueueOf(old(history), peer), WithinMinute(now)) < 10
      ensures ok ==> retryAfter == 0
      ensures !ok ==> |Recent(QueueOf(old(history), peer), now)| == 10
                      && retryAfter == RetryAfter(Recent(QueueOf(old(history), peer), now)[0], now)
      ensures victim != Some(peer)
      ensures var kept := if victim.Some? then old(history) - {victim.value} else old(history);
              history == if ok then kept[peer := QueueOf(old(history), peer) + [now]] else kept
      ensures victim.Some? ==> peer !in old(attempts) && |old(attempts)| == 4096
    {
      hide QueuesOk, AllFaithful, Faithful, QueueOk, Recent, Drained, Pruned, Sorted, UpTo, SumOf, WithinMinute;
      victim := None;
      var queue := [];
      if peer in attempts {
        TimePasses(attempts, history, lastCall, now);
        lastCall := now;
        queue := attempts[peer];
      } else {
        victim := MakeRoom(now);
      }
      OneQueue(attempts, history, peer, now);
      RecentIsCounted(QueueOf(old(history), peer), now);
      queue := Drain(queue, now);
      if |queue| >= ATTEMPTS_PER_WINDOW {
        RefusalStands(attempts, history, peer, queue, now);
        attempts := attempts[peer := queue];
        return false, RetryAfter(queue[0], now), victim;
      }
      GrantStands(queue, QueueOf(history, peer), now);
      UpdateStands(attempts, history, peer, queue + [now], QueueOf(history, peer) + [now], now);
      attempts := attempts[peer := queue + [now]];
      history := history[peer := QueueOf(history, peer) + [now]];
      return true, 0, victim;
    }
  }

  lemma OneQueue(table: Table, history: Table, peer: Peer, now: real)
    requires QueuesOk(table, now) && AllFaithful(table, history, now)
    ensures var q := Drained(QueueOf(table, peer), now);
            && Sorted(q) && UpTo(q, now) && |q| <= ATTEMPTS_PER_WINDOW && (q != [] ==> QueueOk(q, now))
            && Faithful(q, QueueOf(history, peer), now)
            && q == Recent(QueueOf(history, peer), now)
  {
    assert Faithful(QueueOf(table, peer), QueueOf(history, peer), now);
    DrainedStands(QueueOf(table, peer), QueueOf(history, peer), now);
  }

  lemma TimePasses(table: Table, history: Table, t: real, now: real)
    requires QueuesOk(table, t) && AllFaithful(table, history, t) && t <= now
    ensures QueuesOk(table, now) && AllFaithful(table, history, now)
  {
    forall p ensures Faithful(QueueOf(table, p), QueueOf(history, p), now) {
      FaithfulLater(QueueOf(table, p), QueueOf(history, p), t, now);
    }
  }

  lemma PrunedIsValid(table: Table, history: Table, now: real)
    requires QueuesOk(table, now) && AllFaithful(table, history, now)
    ensures QueuesOk(Pruned(table, now), now) && AllFaithful(Pruned(table, now), history, now)
    ensures |Pruned(table, now)| <= |table|
  {
    forall p
      ensures p in Pruned(table, now) ==> QueueOk(Pruned(table, now)[p], now)
      ensures Faithful(QueueOf(Pruned(table, now), p), QueueOf(history, p), now)
    {
      assert Faithful(QueueOf(table, p), QueueOf(history, p), now);
      DrainedStands(QueueOf(table, p), QueueOf(history, p), now);
    }
    assert table.Keys == Pruned(table, now).Keys + (table.Keys - Pruned(table, now).Keys);
  }

  /** Draining keeps a queue sorted, no longer than it was, and faithful. */
  lemma DrainedStands(q: seq<real>, grants: seq<real>, now: real)
    requires Sorted(q) && UpTo(q, now) && Faithful(q, grants, now)
    ensures Sorted(Drained(q, now)) && |Drained(q, now)| <= |q| && UpTo(Drained(q, now), now)
    ensures Faithful(Drained(q, now), grants, now)
    ensures Drained(q, now) == Recent(grants, now)
  {
    DrainedIsRecent(q, now);
    RecentLater(q, now, now);
  }

  /** Recording a grant keeps the queue in order and faithful. */
  lemma GrantStands(q: seq<real>, grants: seq<real>, now: real)
    requires Sorted(q) && UpTo(q, now) && Faithful(q, grants, now) && |q| < ATTEMPTS_PER_WINDOW
    ensures QueueOk(q + [now], now) && Faithful(q + [now], grants + [now], now)
  {
    RecentAppend(q, now, now);
    RecentAppend(grants, now, now);
    SortedAppend(q, now);
    SortedAppend(grants, now);
  }

  lemma EvictionStands(table: Table, history: Table, oldest: Peer, now: real)
    requires QueuesOk(table, now) && AllFaithful(table, history, now) && oldest in table
    ensures QueuesOk(table - {oldest}, now) && AllFaithful(table - {oldest}, history - {oldest}, now)
    ensures |table - {oldest}| == |table| - 1
  {
    forall p ensures Faithful(QueueOf(table - {oldest}, p), QueueOf(history - {oldest}, p), now) {
      assert Faithful(QueueOf(table, p), QueueOf(history, p), now);
    }
    assert (table - {oldest}).Keys == table.Keys - {oldest};
  }

  /** Replacing the queue, and the history, of one peer. */
  lemma UpdateStands(table: Table, history: Table, peer: Peer, queue: seq<real>, grants: seq<real>, now: real)
    requires QueuesOk(table, now) && AllFaithful(table, history, now)
    requires QueueOk(queue, now) && Faithful(queue, grants, now)
    ensures QueuesOk(table[peer := queue], now) && AllFaithful(table[peer := queue], history[peer := grants], now)
    ensures |table[peer := queue]| == if peer in table then |table| else |table| + 1
  {
    hide Faithful, QueueOk;
    var after, later := table[peer := queue], history[peer := grants];
    forall p ensures Faithful(QueueOf(after, p), QueueOf(later, p), now) {
      assert Faithful(QueueOf(table, p), QueueOf(history, p), now);
    }
    assert after.Keys == table.Keys + {peer};
  }

  lemma RefusalStands(table: Table, history: Table, peer: Peer, queue: seq<real>, now: real)
    requires QueuesOk(table, now) && AllFaithful(table, history, now)
    requires QueueOk(queue, now) && Faithful(queue, QueueOf(history, peer), now)
    ensures QueuesOk(table[peer := queue], now) && AllFaithful(table[peer := queue], history, now)
    ensures |table[peer := queue]| == if peer in table then |table| else |table| + 1
  {
    hide Faithful, QueueOk;
    forall p ensures Faithful(QueueOf(table[peer := queue], p), QueueOf(history, p), now) {
      assert Faithful(QueueOf(table, p), QueueOf(history, p), now);
    }
    assert table[peer := queue].Keys == table.Keys + {peer};
  }

  lemma SortedAppend(q: seq<real>, x: real)
    requires Sorted(q) && UpTo(q, x)
    ensures Sorted(q + [x]) && UpTo(q + [x], x)
  {
    assert forall i :: 0 <= i < |q| ==> q[i] in q;
  }
}
