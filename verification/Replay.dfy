/** Draining the outbox: every pending row of every company is redelivered in its own
    transaction, and counted as succeeded, skipped or failed. */
module Replay {
  import opened Common
  import opened Ledger
  import opened Posting
  import opened Inventory
  import opened Sums
  import opened Kernel
  import opened Reachable

  /** The tables of every company. */
  type World = map<Id, Tables>

  /** A stored row. `company` is None when the payload names none, `payload` is None when
      the event type is not registered or the payload fails its schema. */
  datatype OutboxRow = OutboxRow(company: Option<Id>, payload: Option<Event>, dispatched: bool)

  datatype Verdict = Succeeded | Skipped | RowFailed

  function TablesOf(w: World, c: Id): Tables {
    if c in w then w[c] else Empty(map[])
  }

  /** One row's transaction. A company that does not exist has no rows to write to. */
  function Attempt(w: World, row: OutboxRow): Outcome<World> {
    if row.company == None || row.payload == None then Failed(Rejected)
    else
      var c := row.company.value;
      match Dispatch(TablesOf(w, c), row.payload.value)
      case Failed(error) => Failed(error)
      case Done(after) =>
        if c in w then Done(w[c := after])
        else if after == TablesOf(w, c) then Done(w)
        else Failed(CheckViolation)
  }

  function AfterRow(w: World, row: OutboxRow): World {
    match Attempt(w, row)
    case Done(after) => after
    case Failed(_) => w
  }

  function EntriesFor(entries: seq<Entry>, s: Source): nat {
    if entries == [] then 0 else
    EntriesFor(entries[..|entries| - 1], s) + if entries[|entries| - 1].source == Some(s) then 1 else 0
  }

  function MovesFor(moves: seq<Move>, s: Source): nat {
    if moves == [] then 0 else
    MovesFor(moves[..|moves| - 1], s) + if moves[|moves| - 1].source == Some(s) then 1 else 0
  }

  /** The rows already recorded under the event's key, over both side-effect tables. */
  function Effects(t: Tables, s: Source): nat {
    EntriesFor(t.books.entries, s) + MovesFor(t.stock.moves, s)
  }

  /** The verdict is read off the effect counts before and after. */
  function VerdictOf(w: World, row: OutboxRow): Verdict {
    match Attempt(w, row)
    case Failed(_) => RowFailed
    case Done(after) =>
      var c, s := row.company.value, KeyOf(row.payload.value);
      if Effects(TablesOf(after, c), s) > Effects(TablesOf(w, c), s) then Succeeded else Skipped
  }

  function ReplayAll(w: World, rows: seq<OutboxRow>): World {
    if rows == [] then w else AfterRow(ReplayAll(w, rows[..|rows| - 1]), rows[|rows| - 1])
  }

  /** How many of the rows, replayed in order, end with the verdict. */
  function Tally(w: World, rows: seq<OutboxRow>, v: Verdict): nat {
    if rows == [] then 0 else
    var front := rows[..|rows| - 1];
    Tally(w, front, v) + if VerdictOf(ReplayAll(w, front), rows[|rows| - 1]) == v then 1 else 0
  }

  lemma {:induction false} ReplayConcat(w: World, x: seq<OutboxRow>, y: seq<OutboxRow>)
    ensures ReplayAll(w, x + y) == ReplayAll(ReplayAll(w, x), y)
  {
    if y == [] {
      assert x + y == x;
    } else {
      assert (x + y)[..|x + y| - 1] == x + y[..|y| - 1];
      ReplayConcat(w, x, y[..|y| - 1]);
    }
  }

  // ---------------------------------------------------------------------------
  // One row
  // ---------------------------------------------------------------------------

  /** Tables only ever gain entries and moves in a delivery. */
  ghost predicate Grows(t: Tables, u: Tables) {
    t.books.entries <= u.books.entries && t.stock.moves <= u.stock.moves
  }

  lemma {:induction false} BatchGrowsEffects(st: Stock, products: seq<Id>, qty: map<Id, int>, s: Source)
    requires forall p :: p in products ==> p in qty
    requires ApplyBatch(st, products, qty, s).Done?
    ensures MovesFor(ApplyBatch(st, products, qty, s).value.moves, s) == MovesFor(st.moves, s) + |products|
    decreases |products|
  {
    if products != [] {
      var next := ApplyMove(st, products[0], -qty[products[0]], Some(s)).value;
      assert next.moves[..|next.moves| - 1] == st.moves;
      BatchGrowsEffects(next, products[1..], qty, s);
    }
  }

  lemma ShipEffects(st: Stock, lines: seq<ShippedLine>, s: Source)
    requires Ship(st, lines, s).Done?
    ensures var after := Ship(st, lines, s).value;
            after == st || MovesFor(after.moves, s) > MovesFor(st.moves, s)
  {
    var qty := QtyByProduct(lines);
    if ApplyBatch(st, Ascending(qty.Keys), qty, s).Done? {
      BatchGrowsEffects(st, Ascending(qty.Keys), qty, s);
    }
  }

  lemma PostEffects(b: Books, e: Event)
    requires PostEvent(b, e).Done?
    ensures var after := PostEvent(b, e).value;
            && b.entries <= after.entries
            && (after == b || EntriesFor(after.entries, KeyOf(e)) == EntriesFor(b.entries, KeyOf(e)) + 1)
  {
    DeliveryShape(b, e);
    var after := PostEvent(b, e).value;
    if after != b {
      assert after.entries[..|after.entries| - 1] == b.entries;
    }
  }

  /** A delivery that goes through either changes nothing or leaves a countable trace
      under the event's own key. */
  lemma DeliveryLeavesTrace(t: Tables, e: Event)
    requires Dispatch(t, e).Done?
    ensures var u := Dispatch(t, e).value;
            && Grows(t, u) && u == t.(books := u.books, stock := u.stock)
            && (u == t || Effects(u, KeyOf(e)) > Effects(t, KeyOf(e)))
  {
    hide PostEvent, Ship;
    if e.kind != OrderConfirmed {
      PostEffects(t.books, e);
      if e.kind == GoodsShipped {
        ShipEffects(t.stock, e.lines, KeyOf(e));
        ShipDelivers(t.stock, e.lines, KeyOf(e));
      }
    }
  }

  /** The summary is honest: a row that is counted as skipped or failed changed nothing
      at all, one that is counted as succeeded changed only its own company. */
  lemma VerdictsAreHonest(w: World, row: OutboxRow)
    ensures VerdictOf(w, row) == Succeeded <==> AfterRow(w, row) != w
    ensures AfterRow(w, row).Keys == w.Keys
    ensures forall c :: c in w && row.company != Some(c) ==> AfterRow(w, row)[c] == w[c]
  {
    hide Dispatch, Effects;
    if Attempt(w, row).Done? {
      var c, e := row.company.value, row.payload.value;
      DeliveryLeavesTrace(TablesOf(w, c), e);
      if c in w && Dispatch(w[c], e).value == w[c] { assert w[c := w[c]] == w; }
    }
  }

  // ---------------------------------------------------------------------------
  // Any multiset of rows, in any order
  // ---------------------------------------------------------------------------

  /** Every row gets exactly one verdict. */
  lemma {:induction false} EveryRowIsCounted(w: World, rows: seq<OutboxRow>)
    ensures Tally(w, rows, Succeeded) + Tally(w, rows, Skipped) + Tally(w, rows, RowFailed) == |rows|
  {
    if rows != [] { EveryRowIsCounted(w, rows[..|rows| - 1]); }
  }

  /** A row that does not succeed might as well not have been there: every other row's
      transaction sees and writes what it would have without it. */
  lemma PoisonIsIsolated(w: World, rows: seq<OutboxRow>, k: nat)
    requires k < |rows| && VerdictOf(ReplayAll(w, rows[..k]), rows[k]) != Succeeded
    ensures ReplayAll(w, rows) == ReplayAll(w, rows[..k] + rows[k + 1..])
    ensures ReplayAll(w, rows[..k + 1]) == ReplayAll(w, rows[..k])
  {
    VerdictsAreHonest(ReplayAll(w, rows[..k]), rows[k]);
    assert rows[..k + 1][..k] == rows[..k];
    assert rows == rows[..k + 1] + rows[k + 1..];
    ReplayConcat(w, rows[..k + 1], rows[k + 1..]);
    ReplayConcat(w, rows[..k], rows[k + 1..]);
  }

  /** The uniqueness half of every company's tables. */
  ghost predicate WorldOk(w: World) {
    forall c :: c in w ==> BooksOk(w[c].books) && StockOk(w[c].stock)
  }

  lemma RowKeepsWorld(w: World, row: OutboxRow)
    requires WorldOk(w)
    ensures WorldOk(AfterRow(w, row))
  {
    hide BooksOk, StockOk, Ship, PostEvent;
    if Attempt(w, row).Done? && row.company.value in w {
      var t, e := w[row.company.value], row.payload.value;
      if e.kind != OrderConfirmed {
        PostEventKeeps(t.books, e);
        if e.kind == GoodsShipped { ShipKeeps(t.stock, e.lines, KeyOf(e)); }
      }
    }
  }

  /** Replaying any rows in any order keeps, in every company: at most one entry per
      source, at most one move per source and product, gapless numbers, and a summary
      that is the non-negative sum of the moves. */
  lemma {:induction false} ReplayKeepsUniqueness(w: World, rows: seq<OutboxRow>)
    requires WorldOk(w)
    ensures WorldOk(ReplayAll(w, rows))
  {
    if rows != [] {
      ReplayKeepsUniqueness(w, rows[..|rows| - 1]);
      RowKeepsWorld(ReplayAll(w, rows[..|rows| - 1]), rows[|rows| - 1]);
    }
  }

  /** What a delivery that went through leaves behind for good. */
  ghost predicate Spent(t: Tables, e: Event) {
    && (e.kind == GoodsShipped ==> Delivered(t.stock.moves, e.lines, KeyOf(e)))
    && (e.kind != OrderConfirmed && e.exact != 0 ==> HasSource(t.books.entries, KeyOf(e)))
  }

  lemma DoneIsSpent(t: Tables, e: Event)
    requires Dispatch(t, e).Done?
    ensures Spent(Dispatch(t, e).value, e)
  {
    hide PostEvent, Ship;
    if e.kind != OrderConfirmed {
      DeliveryShape(t.books, e);
      if e.kind == GoodsShipped { ShipDelivers(t.stock, e.lines, KeyOf(e)); }
    }
  }

  lemma SpentStays(t: Tables, u: Tables, e: Event)
    requires Spent(t, e) && Grows(t, u)
    ensures Spent(u, e)
  {
    if e.kind == GoodsShipped && e.lines != [] {
      var l :| l in e.lines && HasMove(t.stock.moves, KeyOf(e), l.product);
      GrownKeepsMoves(t.stock.moves, u.stock.moves, KeyOf(e), l.product);
    }
    if e.kind != OrderConfirmed && e.exact != 0 { GrownKeepsSources(t.books, u.books, KeyOf(e)); }
  }

  lemma SpentIsInert(t: Tables, e: Event)
    requires Spent(t, e)
    ensures Dispatch(t, e) == Done(t) || Dispatch(t, e).Failed?
  {
    if e.kind != OrderConfirmed {
      if e.kind == GoodsShipped { RedeliveryMovesNothing(t.stock, e.lines, KeyOf(e)); }
      if e.exact != 0 { RedeliveryPostsNothing(t.books, e); }
    }
  }

  lemma RowGrows(w: World, row: OutboxRow, c: Id)
    ensures Grows(TablesOf(w, c), TablesOf(AfterRow(w, row), c))
  {
    hide Dispatch;
    if Attempt(w, row).Done? { DeliveryLeavesTrace(TablesOf(w, row.company.value), row.payload.value); }
  }

  lemma {:induction false} ReplayGrows(w: World, rows: seq<OutboxRow>, c: Id)
    ensures Grows(TablesOf(w, c), TablesOf(ReplayAll(w, rows), c))
  {
    if rows != [] {
      ReplayGrows(w, rows[..|rows| - 1], c);
      RowGrows(ReplayAll(w, rows[..|rows| - 1]), rows[|rows| - 1], c);
    }
  }

  lemma SpentRowIsInert(w: World, row: OutboxRow)
    requires row.company.Some? && row.payload.Some? && Spent(TablesOf(w, row.company.value), row.payload.value)
    ensures AfterRow(w, row) == w && VerdictOf(w, row) != Succeeded
  {
    hide Dispatch, Spent, Effects;
    var c := row.company.value;
    SpentIsInert(TablesOf(w, c), row.payload.value);
    if c in w { assert w[c := w[c]] == w; }
    VerdictsAreHonest(w, row);
  }

  lemma DoneRowIsSpent(w: World, row: OutboxRow)
    requires Attempt(w, row).Done?
    ensures row.company.Some? && row.payload.Some?
    ensures Spent(TablesOf(AfterRow(w, row), row.company.value), row.payload.value)
  {
    hide Dispatch, Spent;
    DoneIsSpent(TablesOf(w, row.company.value), row.payload.value);
  }

  /** Once a row went through, every later row with the same company and payload leaves
      the world as it finds it, whatever is replayed in between. */
  lemma AppliedAtMostOnce(w: World, rows: seq<OutboxRow>, i: nat, j: nat)
    requires i < j < |rows|
    requires rows[i].company == rows[j].company && rows[i].payload == rows[j].payload
    requires VerdictOf(ReplayAll(w, rows[..i]), rows[i]) != RowFailed
    ensures VerdictOf(ReplayAll(w, rows[..j]), rows[j]) != Succeeded
    ensures ReplayAll(w, rows[..j + 1]) == ReplayAll(w, rows[..j])
  {
    hide Spent, Attempt, Grows;
    var before := ReplayAll(w, rows[..i]);
    DoneRowIsSpent(before, rows[i]);
    assert rows[..i + 1][..i] == rows[..i];
    var c, e := rows[i].company.value, rows[i].payload.value;
    var first, later := ReplayAll(w, rows[..i + 1]), ReplayAll(w, rows[..j]);
    assert rows[..j] == rows[..i + 1] + rows[i + 1..j];
    ReplayConcat(w, rows[..i + 1], rows[i + 1..j]);
    ReplayGrows(first, rows[i + 1..j], c);
    SpentStays(TablesOf(first, c), TablesOf(later, c), e);
    SpentRowIsInert(later, rows[j]);
    assert rows[..j + 1][..j] == rows[..j];
  }

  predicate OfDocumentEvent(kind: EventType) {
    kind != OrderConfirmed && kind != GoodsShipped
  }

  /** A document event under a used key changes nothing, whatever its payload says. */
  lemma UsedKeyIsInert(w: World, row: OutboxRow)
    requires row.company.Some? && row.payload.Some? && OfDocumentEvent(row.payload.value.kind)
    requires HasSource(TablesOf(w, row.company.value).books.entries, KeyOf(row.payload.value))
    ensures VerdictOf(w, row) != Succeeded
  {
    hide Effects, VerdictOf;
    var c := row.company.value;
    RedeliveryPostsNothing(TablesOf(w, c).books, row.payload.value);
    if c in w { assert w[c := w[c]] == w; }
    VerdictsAreHonest(w, row);
  }

  lemma SuccessUsesKey(w: World, row: OutboxRow)
    requires VerdictOf(w, row) == Succeeded && OfDocumentEvent(row.payload.value.kind)
    ensures row.company.Some? && row.payload.Some?
    ensures HasSource(TablesOf(AfterRow(w, row), row.company.value).books.entries, KeyOf(row.payload.value))
  {
    hide Effects, PostEvent;
    var t, e := TablesOf(w, row.company.value), row.payload.value;
    VerdictsAreHonest(w, row);
    DeliveryShape(t.books, e);
    if row.company.value in w { assert w[row.company.value := w[row.company.value]] == w; }
  }

  /** For invoices and payments the key alone decides: of all rows with one company, event
      type and source id, at most one succeeds, whatever their payloads and whatever is
      replayed in between. */
  lemma KeySucceedsOnce(w: World, rows: seq<OutboxRow>, i: nat, j: nat)
    requires i < j < |rows| && rows[i].company == rows[j].company
    requires rows[i].payload.Some? && rows[j].payload.Some?
    requires KeyOf(rows[i].payload.value) == KeyOf(rows[j].payload.value)
    requires OfDocumentEvent(rows[i].payload.value.kind)
    requires VerdictOf(ReplayAll(w, rows[..i]), rows[i]) == Succeeded
    ensures VerdictOf(ReplayAll(w, rows[..j]), rows[j]) != Succeeded
  {
    hide VerdictOf, Attempt, AfterRow;
    SuccessUsesKey(ReplayAll(w, rows[..i]), rows[i]);
    assert rows[..i + 1][..i] == rows[..i];
    var c, first, later := rows[i].company.value, ReplayAll(w, rows[..i + 1]), ReplayAll(w, rows[..j]);
    assert rows[..j] == rows[..i + 1] + rows[i + 1..j];
    ReplayConcat(w, rows[..i + 1], rows[i + 1..j]);
    ReplayGrows(first, rows[i + 1..j], c);
    GrownKeepsSources(TablesOf(first, c).books, TablesOf(later, c).books, KeyOf(rows[i].payload.value));
    UsedKeyIsInert(later, rows[j]);
  }

  /** The row was published by its company in some reachable state's past. */
  ghost predicate Recorded(w: World, row: OutboxRow) {
    && row.company.Some? && row.payload.Some?
    && row.company.value in w && Reached(w[row.company.value])
    && row.payload.value in w[row.company.value].outbox
  }

  /** Replaying what reachable companies published, any rows, any multiplicity, any
      order, changes nothing and counts no success. Since publishing never stamps a
      row, this is what every routine drain does. */
  lemma {:induction false} RecordedReplayIsIdentity(w: World, rows: seq<OutboxRow>)
    requires forall r :: r in rows ==> Recorded(w, r)
    ensures ReplayAll(w, rows) == w && Tally(w, rows, Succeeded) == 0
  {
    hide Recorded, VerdictOf, AfterRow;
    if rows != [] {
      var front, last := rows[..|rows| - 1], rows[|rows| - 1];
      assert last in rows;
      forall r | r in front ensures Recorded(w, r) { assert r in rows; }
      RecordedReplayIsIdentity(w, front);
      RecordedIsInert(w, last);
    }
  }

  /** A recorded row is counted as skipped iff its company could still take its effects, and
      as failed otherwise. */
  lemma RecordedVerdict(w: World, row: OutboxRow)
    requires Recorded(w, row)
    ensures VerdictOf(w, row) == if SkippedAgain(w[row.company.value], row.payload.value) then Skipped else RowFailed
  {
    hide Dispatch, Effects, SkippedAgain, Reached;
    var c := row.company.value;
    var k :| 0 <= k < |w[c].outbox| && w[c].outbox[k] == row.payload.value;
    RecordedIsInert(w, row);
    RedeliversIff(w[c], k);
  }

  /** A row that names no company, or whose payload cannot be read, is counted as failed. */
  lemma UnreadableFails(w: World, row: OutboxRow)
    requires row.company == None || row.payload == None
    ensures VerdictOf(w, row) == RowFailed && AfterRow(w, row) == w
  {
  }

  lemma RecordedIsInert(w: World, row: OutboxRow)
    requires Recorded(w, row)
    ensures AfterRow(w, row) == w && VerdictOf(w, row) != Succeeded
  {
    hide KernelOk, Dispatch, Effects, Applied;
    var c := row.company.value;
    var k :| 0 <= k < |w[c].outbox| && w[c].outbox[k] == row.payload.value;
    ReachedIsOk(w[c]);
    RecordedIsApplied(w[c], k);
    RedeliveryChangesNothing(w[c], row.payload.value);
    assert w[c := w[c]] == w;
    VerdictsAreHonest(w, row);
  }

  // ---------------------------------------------------------------------------
  // The drain loop
  // ---------------------------------------------------------------------------

  datatype Summary = Summary(succeeded: nat, skipped: nat, failed: nat)

  function Pending(rows: seq<OutboxRow>): seq<OutboxRow> {
    if rows == [] then [] else
    Pending(rows[..|rows| - 1]) + if rows[|rows| - 1].dispatched then [] else [rows[|rows| - 1]]
  }

  /** A row is stamped once its transaction committed, whatever it was counted as. */
  function Stamped(w: World, rows: seq<OutboxRow>, i: nat): OutboxRow
    requires i < |rows|
  {
    if !rows[i].dispatched && VerdictOf(ReplayAll(w, Pending(rows[..i])), rows[i]) != RowFailed
    then rows[i].(dispatched := true)
    else rows[i]
  }

  method CountEffects(t: Tables, s: Source) returns (total: nat)
    ensures total == Effects(t, s)
  {
    total := 0;
    for k := 0 to |t.books.entries|
      invariant total == EntriesFor(t.books.entries[..k], s)
    {
      assert t.books.entries[..k + 1][..k] == t.books.entries[..k];
      if t.books.entries[k].source == Some(s) { total := total + 1; }
    }
    assert t.books.entries[..|t.books.entries|] == t.books.entries;
    for k := 0 to |t.stock.moves|
      invariant total == EntriesFor(t.books.entries, s) + MovesFor(t.stock.moves[..k], s)
    {
      assert t.stock.moves[..k + 1][..k] == t.stock.moves[..k];
      if t.stock.moves[k].source == Some(s) { total := total + 1; }
    }
    assert t.stock.moves[..|t.stock.moves|] == t.stock.moves;
  }

  class OutboxReplay {
    var world: World
    var rows: seq<OutboxRow>

    constructor (world: World, rows: seq<OutboxRow>)
      ensures this.world == world && this.rows == rows
    {
      this.world, this.rows := world, rows;
    }

    method ReplayRow(row: OutboxRow) returns (verdict: Verdict)
      modifies this`world
      ensures world == AfterRow(old(world), row) && verdict == VerdictOf(old(world), row)
    {
      if row.company == None || row.payload == None { return RowFailed; }
      var c, e := row.company.value, row.payload.value;
      var tables := TablesOf(world, c);
      var before := CountEffects(tables, KeyOf(e));
      var outcome := Dispatch(tables, e);
      if outcome.Failed? { return RowFailed; }
      if c !in world {
        if outcome.value != tables { return RowFailed; }
        return Skipped;
      }
      var after := CountEffects(outcome.value, KeyOf(e));
      world := world[c := outcome.value];
      return if after > before then Succeeded else Skipped;
    }

    /** Drains every pending row once: the world, the stamps and the three counters. */
    method Drain() returns (summary: Summary)
      modifies this
      ensures world == ReplayAll(old(world), Pending(old(rows)))
      ensures |rows| == |old(rows)| && forall i :: 0 <= i < |rows| ==> rows[i] == Stamped(old(world), old(rows), i)
      ensures summary == Counted(old(world), Pending(old(rows)))
      ensures summary.succeeded + summary.skipped + summary.failed == |Pending(old(rows))|
    {
      hide VerdictOf, AfterRow, Pending, Counted, ReplayAll;
      summary := Summary(0, 0, 0);
      ghost var before := world;
      var all := rows;
      NothingDrained(before, all);
      for k := 0 to |all|
        invariant Drained(before, all, k, world, rows, summary)
      {
        DrainStep(before, all, k, rows, summary);
        if !all[k].dispatched {
          var verdict := ReplayRow(all[k]);
          summary := Count(summary, verdict);
          if verdict != RowFailed { rows := rows[k := all[k].(dispatched := true)]; }
        }
      }
      assert all[..|all|] == all;
      CountedIsTally(before, Pending(all));
      EveryRowIsCounted(before, Pending(all));
    }
  }

  function Count(summary: Summary, v: Verdict): Summary {
    match v
    case Succeeded => summary.(succeeded := summary.succeeded + 1)
    case Skipped => summary.(skipped := summary.skipped + 1)
    case RowFailed => summary.(failed := summary.failed + 1)
  }

  /** The counters after replaying the rows in order. */
  function Counted(w: World, rows: seq<OutboxRow>): Summary {
    if rows == [] then Summary(0, 0, 0) else
    var front := rows[..|rows| - 1];
    Count(Counted(w, front), VerdictOf(ReplayAll(w, front), rows[|rows| - 1]))
  }

  lemma {:induction false} CountedIsTally(w: World, rows: seq<OutboxRow>)
    ensures Counted(w, rows) == Summary(Tally(w, rows, Succeeded), Tally(w, rows, Skipped), Tally(w, rows, RowFailed))
  {
    if rows != [] { CountedIsTally(w, rows[..|rows| - 1]); }
  }

  /** The first `k` rows are done. */
  ghost predicate Drained(before: World, all: seq<OutboxRow>, k: nat, world: World, rows: seq<OutboxRow>,
      summary: Summary)
    requires k <= |all|
  {
    && |rows| == |all|
    && (forall i :: 0 <= i < |all| ==> rows[i] == if i < k then Stamped(before, all, i) else all[i])
    && world == ReplayAll(before, Pending(all[..k]))
    && summary == Counted(before, Pending(all[..k]))
  }

  lemma NothingDrained(before: World, all: seq<OutboxRow>)
    ensures Drained(before, all, 0, before, all, Summary(0, 0, 0))
  {
    assert all[..0] == [];
  }

  lemma DrainStep(before: World, all: seq<OutboxRow>, k: nat, rows: seq<OutboxRow>, summary: Summary)
    requires k < |all| && Drained(before, all, k, ReplayAll(before, Pending(all[..k])), rows, summary)
    ensures var w := ReplayAll(before, Pending(all[..k]));
            if all[k].dispatched then Drained(before, all, k + 1, w, rows, summary)
            else
              var v := VerdictOf(w, all[k]);
              Drained(before, all, k + 1, AfterRow(w, all[k]),
                      if v == RowFailed then rows else rows[k := all[k].(dispatched := true)], Count(summary, v))
  {
    hide VerdictOf, AfterRow, Pending, Counted, ReplayAll;
    PendingStep(all, k);
    CountedStep(before, Pending(all[..k]), all[k]);
  }

  lemma PendingStep(rows: seq<OutboxRow>, k: nat)
    requires k < |rows|
    ensures Pending(rows[..k + 1]) == if rows[k].dispatched then Pending(rows[..k]) else Pending(rows[..k]) + [rows[k]]
  {
    assert rows[..k + 1][..k] == rows[..k];
    assert Pending(rows[..k]) + [] == Pending(rows[..k]);
  }

  lemma CountedStep(w: World, front: seq<OutboxRow>, row: OutboxRow)
    ensures ReplayAll(w, front + [row]) == AfterRow(ReplayAll(w, front), row)
    ensures Counted(w, front + [row]) == Count(Counted(w, front), VerdictOf(ReplayAll(w, front), row))
  {
    hide VerdictOf, AfterRow, Count;
    assert (front + [row])[..|front|] == front;
  }
}
