/** The posting ledger of one company: periods, gapless numbers, entries, reversals
    and the trial balance. */
module Ledger {
  import opened Common
  import opened Sums

  /** An account, identified inside its company by its code. */
  type Code = nat

  const RECEIVABLE: Code := 1100
  const KERNEL_CONTROL: set<Code> := {RECEIVABLE}
  const FUNCTIONAL_CURRENCY := "TWD"
  const RATE_ONE: int := 10_000_000_000  // NUMERIC(20,10)

  datatype PeriodStatus = Open | Closed

  datatype Line = Line(account: Code, currency: string, txnDebit: int, txnCredit: int,
                       debit: int, credit: int, rate: int)

  datatype Entry = Entry(number: nat, date: Date, source: Option<Source>,
                         reversalOf: Option<nat>, lines: seq<Line>)

  datatype EntryDraft = EntryDraft(date: Date, source: Option<Source>, lines: seq<Line>)

  /** `chart` says of each account whether `is_control` is set. An entry's id is its
      position: entries are append-only and immutable. */
  datatype Books = Books(chart: map<Code, bool>, periods: map<Month, PeriodStatus>,
                         entries: seq<Entry>, nextNo: map<int, nat>)

  // ---------------------------------------------------------------------------
  // Lines
  // ---------------------------------------------------------------------------

  function DebitOf(l: Line): int { l.debit }
  function CreditOf(l: Line): int { l.credit }

  function SideTotal(lines: seq<Line>, side: Line -> int): int {
    if lines == [] then 0 else SideTotal(lines[..|lines| - 1], side) + side(lines[|lines| - 1])
  }

  /** The part of `SideTotal` that falls on account `a`. */
  function SideOn(lines: seq<Line>, side: Line -> int, a: Code): int {
    if lines == [] then 0 else
    var last := lines[|lines| - 1];
    SideOn(lines[..|lines| - 1], side, a) + if last.account == a then side(last) else 0
  }

  function Net(lines: seq<Line>, a: Code): int {
    SideOn(lines, DebitOf, a) - SideOn(lines, CreditOf, a)
  }

  function AccountsOf(lines: seq<Line>): set<Code> {
    set l | l in lines :: l.account
  }

  /** What one line must satisfy to be posted. */
  predicate LineOk(l: Line) {
    && l.currency == FUNCTIONAL_CURRENCY
    && l.rate == RATE_ONE
    && l.txnDebit == l.debit && l.txnCredit == l.credit
    && ((l.debit > 0 && l.credit == 0) || (l.debit == 0 && l.credit > 0))
  }

  /** A postable set of lines: sound lines, balanced, and worth something. */
  predicate Postable(lines: seq<Line>) {
    && (forall l :: l in lines ==> LineOk(l))
    && SideTotal(lines, DebitOf) == SideTotal(lines, CreditOf) > 0
  }

  function Swapped(lines: seq<Line>): seq<Line> {
    seq(|lines|, i requires 0 <= i < |lines| =>
      lines[i].(debit := lines[i].credit, credit := lines[i].debit,
                txnDebit := lines[i].txnCredit, txnCredit := lines[i].txnDebit))
  }

  /** Swapping the sides negates the effect on every account and swaps the totals. */
  lemma {:induction false} SwappedNegates(lines: seq<Line>, a: Code)
    ensures Net(Swapped(lines), a) == -Net(lines, a)
    ensures SideOn(Swapped(lines), DebitOf, a) == SideOn(lines, CreditOf, a)
    ensures SideOn(Swapped(lines), CreditOf, a) == SideOn(lines, DebitOf, a)
    ensures SideTotal(Swapped(lines), DebitOf) == SideTotal(lines, CreditOf)
    ensures SideTotal(Swapped(lines), CreditOf) == SideTotal(lines, DebitOf)
  {
    if lines != [] {
      var front := lines[..|lines| - 1];
      assert Swapped(lines)[..|lines| - 1] == Swapped(front);
      SwappedNegates(front, a);
    }
  }

  lemma SwappedIsPostable(lines: seq<Line>)
    requires Postable(lines)
    ensures Postable(Swapped(lines)) && AccountsOf(Swapped(lines)) == AccountsOf(lines)
  {
    SwappedNegates(lines, 0);
    forall l | l in Swapped(lines) ensures LineOk(l) && l.account in AccountsOf(lines) {
      var i :| 0 <= i < |lines| && Swapped(lines)[i] == l;
      assert lines[i] in lines;
    }
    forall a | a in AccountsOf(lines) ensures a in AccountsOf(Swapped(lines)) {
      var i :| 0 <= i < |lines| && lines[i].account == a;
      assert Swapped(lines)[i] in Swapped(lines);
    }
  }

  lemma {:induction false} UntouchedAccount(lines: seq<Line>, side: Line -> int, a: Code)
    requires a !in AccountsOf(lines)
    ensures SideOn(lines, side, a) == 0
  {
    if lines != [] {
      var front := lines[..|lines| - 1];
      assert lines[|lines| - 1] in lines;
      forall l | l in front ensures l in lines {}
      UntouchedAccount(front, side, a);
    }
  }

  // ---------------------------------------------------------------------------
  // Entries
  // ---------------------------------------------------------------------------

  predicate IsControl(chart: map<Code, bool>, a: Code) {
    a in chart && (chart[a] || a in KERNEL_CONTROL)
  }

  predicate TouchesControl(chart: map<Code, bool>, lines: seq<Line>) {
    exists a :: a in AccountsOf(lines) && IsControl(chart, a)
  }

  predicate PeriodOpen(b: Books, d: Date) {
    MonthOf(d) in b.periods && b.periods[MonthOf(d)] == Open
  }

  function NextNo(nextNo: map<int, nat>, year: int): nat {
    if year in nextNo then nextNo[year] else 1
  }

  predicate HasSource(entries: seq<Entry>, s: Source) {
    exists e :: e in entries && e.source == Some(s)
  }

  predicate IsReversed(entries: seq<Entry>, id: nat) {
    exists e :: e in entries && e.reversalOf == Some(id)
  }

  function Append(b: Books, d: Date, source: Option<Source>, reversalOf: Option<nat>, lines: seq<Line>): Books {
    var no := NextNo(b.nextNo, d.year);
    b.(entries := b.entries + [Entry(no, d, source, reversalOf, lines)],
       nextNo := b.nextNo[d.year := no + 1])
  }

  /** What posting `draft` into `b` amounts to once the transaction is over. */
  function Post(b: Books, draft: EntryDraft): Outcome<Books> {
    if !Postable(draft.lines) then Failed(InvalidLines)
    else if !(AccountsOf(draft.lines) <= b.chart.Keys) then Failed(UnknownAccount)
    else if draft.source == None && TouchesControl(b.chart, draft.lines) then Failed(ControlAccount)
    else if !PeriodOpen(b, draft.date) then Failed(PeriodNotOpen)
    else if draft.source.Some? && HasSource(b.entries, draft.source.value) then Failed(SourceConflict)
    else Done(Append(b, draft.date, draft.source, None, draft.lines))
  }

  /** Reversal of the entry `id`, dated the day it is made. */
  function Reverse(b: Books, id: nat, today: Date): Outcome<Books> {
    if id >= |b.entries| then Failed(NotFound)
    else if b.entries[id].reversalOf != None || IsReversed(b.entries, id) then Failed(ReversalNotAllowed)
    else if TouchesControl(b.chart, b.entries[id].lines) then Failed(ControlAccount)
    else if !PeriodOpen(b, today) then Failed(PeriodNotOpen)
    else Done(Append(b, today, None, Some(id), Swapped(b.entries[id].lines)))
  }

  function Close(b: Books, m: Month): Outcome<Books> {
    if m !in b.periods then Failed(NotFound) else Done(b.(periods := b.periods[m := Closed]))
  }

  function OpenNew(b: Books, m: Month): Outcome<Books> {
    if m in b.periods then Failed(Conflict) else Done(b.(periods := b.periods[m := Open]))
  }

  /** Creating an account, or editing its control flag. */
  function SetAccount(b: Books, a: Code, control: bool): Books {
    b.(chart := b.chart[a := control])
  }

  // ---------------------------------------------------------------------------
  // What every run of the ledger keeps
  // ---------------------------------------------------------------------------

  /** The numbers given out in `year`, in posting order. */
  function Numbers(entries: seq<Entry>, year: int): seq<nat> {
    if entries == [] then [] else
    var last := entries[|entries| - 1];
    Numbers(entries[..|entries| - 1], year) + if last.date.year == year then [last.number] else []
  }

  /** [1, 2, ..., n - 1] */
  function CountingTo(n: nat): seq<nat> {
    if n <= 1 then [] else CountingTo(n - 1) + [n - 1]
  }

  /** Every number below the counter was given out exactly once, in order. */
  ghost predicate Gapless(b: Books) {
    && (forall y :: NextNo(b.nextNo, y) >= 1)
    && (forall y :: Numbers(b.entries, y) == CountingTo(NextNo(b.nextNo, y)))
  }

  ghost predicate EntriesSound(b: Books) {
    forall e :: e in b.entries ==> Postable(e.lines) && AccountsOf(e.lines) <= b.chart.Keys
  }

  /** Entries without a source event never touch the receivables account. */
  ghost predicate ControlSealed(b: Books) {
    forall e :: e in b.entries && e.source == None ==> RECEIVABLE !in AccountsOf(e.lines)
  }

  /** A reversal mirrors one earlier entry that is not itself a reversal. */
  ghost predicate ReversalMirrors(b: Books, i: nat)
    requires i < |b.entries|
  {
    b.entries[i].reversalOf.Some? ==>
      var j := b.entries[i].reversalOf.value;
      && j < i && b.entries[j].reversalOf == None
      && b.entries[i].source == None
      && b.entries[i].lines == Swapped(b.entries[j].lines)
  }

  ghost predicate ReversalsSound(b: Books) {
    && (forall i :: 0 <= i < |b.entries| ==> ReversalMirrors(b, i))
    && (forall i, j :: 0 <= i < j < |b.entries| && b.entries[i].reversalOf.Some? ==>
          b.entries[i].reversalOf != b.entries[j].reversalOf)
  }

  ghost predicate SourcesUnique(b: Books) {
    forall i, j :: 0 <= i < j < |b.entries| && b.entries[i].source.Some? ==>
      b.entries[i].source != b.entries[j].source
  }

  ghost predicate BooksOk(b: Books) {
    Gapless(b) && EntriesSound(b) && ControlSealed(b) && ReversalsSound(b) && SourcesUnique(b)
  }

  lemma AppendKeepsGapless(b: Books, d: Date, source: Option<Source>, reversalOf: Option<nat>, lines: seq<Line>)
    requires Gapless(b)
    ensures Gapless(Append(b, d, source, reversalOf, lines))
  {
    var c := Append(b, d, source, reversalOf, lines);
    forall y ensures NextNo(c.nextNo, y) >= 1 && Numbers(c.entries, y) == CountingTo(NextNo(c.nextNo, y)) {
      assert c.entries[..|c.entries| - 1] == b.entries;
      assert NextNo(b.nextNo, y) >= 1;
    }
  }

  lemma PostKeeps(b: Books, draft: EntryDraft)
    requires BooksOk(b) && Post(b, draft).Done?
    ensures BooksOk(Post(b, draft).value)
  {
    hide Gapless, Postable, Swapped;
    var c := Post(b, draft).value;
    AppendKeepsGapless(b, draft.date, draft.source, None, draft.lines);
    var last := c.entries[|b.entries|];
    assert RECEIVABLE in AccountsOf(draft.lines) ==> IsControl(b.chart, RECEIVABLE);
    assert ControlSealed(c);
    forall i | 0 <= i < |c.entries| ensures ReversalMirrors(c, i) {
      assert i < |b.entries| ==> ReversalMirrors(b, i);
    }
    forall i, j | 0 <= i < j < |c.entries| && c.entries[i].source.Some?
      ensures c.entries[i].source != c.entries[j].source
    {
      if j == |b.entries| { assert b.entries[i] in b.entries; }
    }
  }

  lemma ReverseKeeps(b: Books, id: nat, today: Date)
    requires BooksOk(b) && Reverse(b, id, today).Done?
    ensures BooksOk(Reverse(b, id, today).value)
  {
    hide Gapless, Postable, ReversalsSound, Swapped;
    var c := Reverse(b, id, today).value;
    var lines := b.entries[id].lines;
    assert b.entries[id] in b.entries;
    AppendKeepsGapless(b, today, None, Some(id), Swapped(lines));
    SwappedIsPostable(lines);
    assert RECEIVABLE in AccountsOf(lines) ==> IsControl(b.chart, RECEIVABLE);
    assert ControlSealed(c);
    NewReversalIsSound(b, c, id);
  }

  lemma NewReversalIsSound(b: Books, c: Books, id: nat)
    requires ReversalsSound(b) && id < |b.entries| && b.entries[id].reversalOf == None && !IsReversed(b.entries, id)
    requires |c.entries| == |b.entries| + 1 && b.entries <= c.entries
    requires var last := c.entries[|b.entries|];
             last.reversalOf == Some(id) && last.source == None && last.lines == Swapped(b.entries[id].lines)
    ensures ReversalsSound(c)
  {
    hide Swapped;
    forall i | 0 <= i < |c.entries| ensures ReversalMirrors(c, i) {
      assert i < |b.entries| ==> ReversalMirrors(b, i);
    }
    forall i, j | 0 <= i < j < |c.entries| && c.entries[i].reversalOf.Some?
      ensures c.entries[i].reversalOf != c.entries[j].reversalOf
    {
      if j == |b.entries| { assert b.entries[i] in b.entries; }
    }
  }

  lemma SetAccountKeeps(b: Books, a: Code, control: bool)
    requires BooksOk(b)
    ensures BooksOk(SetAccount(b, a, control))
  {
    var c := SetAccount(b, a, control);
    forall i | 0 <= i < |c.entries| ensures ReversalMirrors(c, i) {
      assert ReversalMirrors(b, i);
    }
  }

  lemma PeriodsKeep(b: Books, periods: map<Month, PeriodStatus>)
    requires BooksOk(b)
    ensures BooksOk(b.(periods := periods))
  {
    var c := b.(periods := periods);
    forall i | 0 <= i < |c.entries| ensures ReversalMirrors(c, i) {
      assert ReversalMirrors(b, i);
    }
  }

  // ---------------------------------------------------------------------------
  // Balances
  // ---------------------------------------------------------------------------

  /** Debit minus credit on account `a` over the whole history. */
  function Balance(entries: seq<Entry>, a: Code): int {
    if entries == [] then 0 else
    Balance(entries[..|entries| - 1], a) + Net(entries[|entries| - 1].lines, a)
  }

  lemma AppendMovesBalance(b: Books, d: Date, source: Option<Source>, reversalOf: Option<nat>, lines: seq<Line>,
      a: Code)
    ensures Balance(Append(b, d, source, reversalOf, lines).entries, a) == Balance(b.entries, a) + Net(lines, a)
  {
    var c := Append(b, d, source, reversalOf, lines);
    assert c.entries[..|c.entries| - 1] == b.entries;
  }

  /** Manual postings and reversals leave the receivables balance alone. */
  lemma UnsourcedKeepsReceivable(b: Books, d: Date, reversalOf: Option<nat>, lines: seq<Line>)
    requires RECEIVABLE !in AccountsOf(lines)
    ensures Balance(Append(b, d, None, reversalOf, lines).entries, RECEIVABLE) == Balance(b.entries, RECEIVABLE)
  {
    AppendMovesBalance(b, d, None, reversalOf, lines, RECEIVABLE);
    UntouchedAccount(lines, DebitOf, RECEIVABLE);
    UntouchedAccount(lines, CreditOf, RECEIVABLE);
  }

  /** In sound books each entry has at most one reversal, a reversal has none, and an
      entry and its reversal cancel on every account. */
  lemma ReversalsCancel(b: Books, i: nat, a: Code)
    requires BooksOk(b) && i < |b.entries| && b.entries[i].reversalOf.Some?
    ensures var j := b.entries[i].reversalOf.value;
            && j < i
            && Net(b.entries[i].lines, a) + Net(b.entries[j].lines, a) == 0
            && !IsReversed(b.entries, i)
            && (forall k :: 0 <= k < |b.entries| && b.entries[k].reversalOf == Some(j) ==> k == i)
  {
    assert ReversalMirrors(b, i);
    var j := b.entries[i].reversalOf.value;
    SwappedNegates(b.entries[j].lines, a);
    forall k | 0 <= k < |b.entries| ensures b.entries[k].reversalOf != Some(i) {
      assert ReversalMirrors(b, k);
    }
  }

  // ---------------------------------------------------------------------------
  // Trial balance
  // ---------------------------------------------------------------------------

  datatype TrialRow = TrialRow(debit: int, credit: int)

  function RowDebit(r: TrialRow): int { r.debit }
  function RowCredit(r: TrialRow): int { r.credit }

  /** The lines the report ranges over: the whole history, or one period. */
  function SelectedLines(entries: seq<Entry>, period: Option<Month>): seq<Line> {
    if entries == [] then [] else
    var last := entries[|entries| - 1];
    SelectedLines(entries[..|entries| - 1], period)
      + if period == None || period == Some(MonthOf(last.date)) then last.lines else []
  }

  /** Lines grouped by account, joined with the company's chart. */
  function TrialBalance(b: Books, period: Option<Month>): map<Code, TrialRow> {
    var lines := SelectedLines(b.entries, period);
    map a | a in AccountsOf(lines) && a in b.chart ::
      TrialRow(SideOn(lines, DebitOf, a), SideOn(lines, CreditOf, a))
  }

  function BySide(lines: seq<Line>, side: Line -> int): map<Code, int> {
    map a | a in AccountsOf(lines) :: SideOn(lines, side, a)
  }

  /** Grouping by account preserves the total of a side. */
  lemma {:induction false} GroupedSide(lines: seq<Line>, side: Line -> int)
    ensures SumBy(BySide(lines, side), x => x) == SideTotal(lines, side)
  {
    if lines != [] {
      var front, last := lines[..|lines| - 1], lines[|lines| - 1];
      GroupedSide(front, side);
      var a, v := last.account, SideOn(lines, side, last.account);
      if a !in AccountsOf(front) { UntouchedAccount(front, side, a); }
      assert lines == front + [last];
      assert AccountsOf(lines) == AccountsOf(front) + {a};
      assert BySide(lines, side) == BySide(front, side)[a := v];
      SumByUpdate(BySide(front, side), x => x, a, v);
      assert SumBy(BySide(lines, side), x => x) == SideTotal(front, side) + side(last);
    }
  }

  lemma {:induction false} SelectedAreBalanced(b: Books, entries: seq<Entry>, period: Option<Month>)
    requires EntriesSound(b) && forall e :: e in entries ==> e in b.entries
    ensures var lines := SelectedLines(entries, period);
            && SideTotal(lines, DebitOf) == SideTotal(lines, CreditOf)
            && AccountsOf(lines) <= b.chart.Keys
  {
    if entries != [] {
      var front, last := entries[..|entries| - 1], entries[|entries| - 1];
      assert last in entries;
      forall e | e in front ensures e in b.entries { assert e in entries; }
      SelectedAreBalanced(b, front, period);
      var chosen := if period == None || period == Some(MonthOf(last.date)) then last.lines else [];
      SideTotalConcat(SelectedLines(front, period), chosen, DebitOf);
      SideTotalConcat(SelectedLines(front, period), chosen, CreditOf);
    }
  }

  lemma {:induction false} SideTotalConcat(x: seq<Line>, y: seq<Line>, side: Line -> int)
    ensures SideTotal(x + y, side) == SideTotal(x, side) + SideTotal(y, side)
  {
    if y == [] {
      assert x + y == x;
    } else {
      var front := y[..|y| - 1];
      assert (x + y)[..|x + y| - 1] == x + front;
      SideTotalConcat(x, front, side);
    }
  }

  /** For the whole history and for every period filter the report misses no posted
      line, and its debits equal its credits. */
  lemma TrialBalanceBalances(b: Books, period: Option<Month>)
    requires BooksOk(b)
    ensures var rows, lines := TrialBalance(b, period), SelectedLines(b.entries, period);
            && SumBy(rows, RowDebit) == SumBy(rows, RowCredit)
            && SumBy(rows, RowDebit) == SideTotal(lines, DebitOf)
            && rows.Keys == AccountsOf(lines)
  {
    var lines := SelectedLines(b.entries, period);
    var rows := TrialBalance(b, period);
    SelectedAreBalanced(b, b.entries, period);
    assert rows.Keys == AccountsOf(lines);
    SumBySame(rows, BySide(lines, DebitOf), RowDebit, x => x);
    SumBySame(rows, BySide(lines, CreditOf), RowCredit, x => x);
    GroupedSide(lines, DebitOf);
    GroupedSide(lines, CreditOf);
  }

  ghost function SideOf(side: Line -> int, a: Code): Line -> int {
    (l: Line) => if l.account == a then side(l) else 0
  }

  lemma {:induction false} SideOnIsSum(lines: seq<Line>, side: Line -> int, a: Code)
    ensures SideOn(lines, side, a) == SumOf(lines, SideOf(side, a))
  {
    if lines != [] {
      SumOfLast(lines, SideOf(side, a));
      SideOnIsSum(lines[..|lines| - 1], side, a);
    }
  }

  /** What an entry brings to one side of one account. */
  ghost function EntrySide(side: Line -> int, a: Code, period: Option<Month>): Entry -> int {
    (x: Entry) =>
      if period == None || period == Some(Month(x.date.year, x.date.month)) then SumOf(x.lines, SideOf(side, a)) else 0
  }

  lemma {:induction false} SelectedSide(entries: seq<Entry>, period: Option<Month>, side: Line -> int, a: Code)
    ensures SideOn(SelectedLines(entries, period), side, a) == SumOf(entries, EntrySide(side, a, period))
  {
    if entries != [] {
      var front, last := entries[..|entries| - 1], entries[|entries| - 1];
      SelectedSide(front, period, side, a);
      SumOfLast(entries, EntrySide(side, a, period));
      SideOnIsSum(last.lines, side, a);
      var chosen := if period == None || period == Some(MonthOf(last.date)) then last.lines else [];
      SideOnConcat(SelectedLines(front, period), chosen, side, a);
    }
  }

  /** Either column of a row is the sum of that side over all selected entries. */
  lemma TrialBalanceColumns(b: Books, period: Option<Month>, a: Code)
    requires a in TrialBalance(b, period)
    ensures TrialBalance(b, period)[a].debit == SumOf(b.entries, EntrySide(DebitOf, a, period))
    ensures TrialBalance(b, period)[a].credit == SumOf(b.entries, EntrySide(CreditOf, a, period))
  {
    SelectedSide(b.entries, period, DebitOf, a);
    SelectedSide(b.entries, period, CreditOf, a);
  }

  /** The entries the report ranges over. */
  function InPeriod(entries: seq<Entry>, period: Option<Month>): seq<Entry> {
    if entries == [] then [] else
    var last := entries[|entries| - 1];
    InPeriod(entries[..|entries| - 1], period)
      + if period == None || period == Some(MonthOf(last.date)) then [last] else []
  }

  lemma {:induction false} SideOnConcat(x: seq<Line>, y: seq<Line>, side: Line -> int, a: Code)
    ensures SideOn(x + y, side, a) == SideOn(x, side, a) + SideOn(y, side, a)
  {
    if y == [] {
      assert x + y == x;
    } else {
      var front := y[..|y| - 1];
      assert (x + y)[..|x + y| - 1] == x + front;
      SideOnConcat(x, front, side, a);
    }
  }

  lemma {:induction false} SelectedNet(entries: seq<Entry>, period: Option<Month>, a: Code)
    ensures Net(SelectedLines(entries, period), a) == Balance(InPeriod(entries, period), a)
  {
    if entries != [] {
      var front, last := entries[..|entries| - 1], entries[|entries| - 1];
      SelectedNet(front, period, a);
      if period == None || period == Some(MonthOf(last.date)) {
        SideOnConcat(SelectedLines(front, period), last.lines, DebitOf, a);
        SideOnConcat(SelectedLines(front, period), last.lines, CreditOf, a);
        assert (InPeriod(front, period) + [last])[..|InPeriod(front, period)|] == InPeriod(front, period);
      } else {
        assert SelectedLines(front, period) + [] == SelectedLines(front, period);
        assert InPeriod(front, period) + [] == InPeriod(front, period);
      }
    }
  }

  /** Each row nets to the balance of its account over the selected entries; an account
      without a row has no balance. */
  lemma TrialBalanceRowsNet(b: Books, period: Option<Month>, a: Code)
    requires BooksOk(b)
    ensures var rows := TrialBalance(b, period);
            Balance(InPeriod(b.entries, period), a) == if a in rows then rows[a].debit - rows[a].credit else 0
  {
    SelectedNet(b.entries, period, a);
    SelectedAreBalanced(b, b.entries, period);
    var lines := SelectedLines(b.entries, period);
    if a !in AccountsOf(lines) {
      UntouchedAccount(lines, DebitOf, a);
      UntouchedAccount(lines, CreditOf, a);
    }
  }

  // ---------------------------------------------------------------------------
  // The service
  // ---------------------------------------------------------------------------

  /** Which line validation stopped at, or that the totals were wrong. */
  datatype Fault = BadLine(index: nat) | Unbalanced | NothingNonzero

  method ValidateLines(lines: seq<Line>) returns (fault: Option<Fault>)
    ensures fault == None <==> Postable(lines)
    ensures fault.Some? && fault.value.BadLine? ==>
              var k := fault.value.index;
              k < |lines| && !LineOk(lines[k]) && forall i :: 0 <= i < k ==> LineOk(lines[i])
    ensures fault == Some(Unbalanced) <==>
              (forall l :: l in lines ==> LineOk(l)) && SideTotal(lines, DebitOf) != SideTotal(lines, CreditOf)
    ensures fault == Some(NothingNonzero) <==> lines == []
  {
    var totalDebit, totalCredit := 0, 0;
    for idx := 0 to |lines|
      invariant forall i :: 0 <= i < idx ==> LineOk(lines[i])
      invariant totalDebit == SideTotal(lines[..idx], DebitOf)
      invariant totalCredit == SideTotal(lines[..idx], CreditOf)
      invariant totalDebit >= 0 && totalCredit >= 0
      invariant idx > 0 ==> totalDebit + totalCredit > 0
    {
      var line := lines[idx];
      assert line in lines;
      if line.currency != FUNCTIONAL_CURRENCY { return Some(BadLine(idx)); }
      if line.txnDebit < 0 || line.txnCredit < 0 || line.debit < 0 || line.credit < 0 { return Some(BadLine(idx)); }
      if line.txnDebit > 0 && line.txnCredit > 0 { return Some(BadLine(idx)); }
      if line.debit > 0 && line.credit > 0 { return Some(BadLine(idx)); }
      if line.debit == 0 && line.credit == 0 { return Some(BadLine(idx)); }
      if (line.debit > 0) != (line.txnDebit > 0) || (line.credit > 0) != (line.txnCredit > 0) {
        return Some(BadLine(idx));
      }
      if line.rate != RATE_ONE { return Some(BadLine(idx)); }
      if line.debit != line.txnDebit || line.credit != line.txnCredit { return Some(BadLine(idx)); }
      assert lines[..idx + 1][..idx] == lines[..idx];
      totalDebit := totalDebit + line.debit;
      totalCredit := totalCredit + line.credit;
    }
    assert lines[..|lines|] == lines;
    if totalDebit != totalCredit { return Some(Unbalanced); }
    if totalDebit == 0 { return Some(NothingNonzero); }
    return None;
  }

  method BuildLines(lines: seq<Line>, swap: bool) returns (built: seq<Line>)
    ensures built == if swap then Swapped(lines) else lines
  {
    built := [];
    for idx := 0 to |lines|
      invariant built == if swap then Swapped(lines)[..idx] else lines[..idx]
    {
      var line := lines[idx];
      var debit, credit := if swap then line.credit else line.debit, if swap then line.debit else line.credit;
      var txnDebit, txnCredit :=
        if swap then line.txnCredit else line.txnDebit, if swap then line.txnDebit else line.txnCredit;
      built := built + [Line(line.account, line.currency, txnDebit, txnCredit, debit, credit, line.rate)];
    }
  }

  class LedgerService {
    var chart: map<Code, bool>
    var periods: map<Month, PeriodStatus>
    var entries: seq<Entry>
    var nextNo: map<int, nat>

    ghost function State(): Books
      reads this
    {
      Books(chart, periods, entries, nextNo)
    }

    constructor (chart: map<Code, bool>)
      ensures State() == Books(chart, map[], [], map[])
    {
      this.chart, periods, entries, nextNo := chart, map[], [], map[];
    }

    method ResolveAndLockPeriod(date: Date) returns (error: Option<Error>)
      ensures error == if PeriodOpen(State(), date) then None else Some(PeriodNotOpen)
    {
      var month := MonthOf(date);
      if month !in periods { return Some(PeriodNotOpen); }
      if periods[month] == Closed { return Some(PeriodNotOpen); }
      return None;
    }

    method AllocateEntryNo(year: int) returns (no: nat)
      modifies this`nextNo
      ensures no == NextNo(old(nextNo), year)
      ensures nextNo == old(nextNo)[year := no + 1]
    {
      if year !in nextNo { nextNo := nextNo[year := 1]; }
      no := nextNo[year];
      nextNo := nextNo[year := no + 1];
    }

    /** Non-committing. When the unique source index fires, the counter has already
        moved: only the caller's savepoint or rollback takes that back. */
    method PostJournalEntry(draft: EntryDraft) returns (error: Option<Error>)
      modifies this`entries, this`nextNo
      ensures match Post(old(State()), draft)
              case Done(after) => error == None && State() == after
              case Failed(e) =>
                && error == Some(e)
                && State() == old(State()).(nextNo :=
                     if e == SourceConflict
                     then old(nextNo)[draft.date.year := NextNo(old(nextNo), draft.date.year) + 1]
                     else old(nextNo))
    {
      var fault := ValidateLines(draft.lines);
      if fault.Some? { return Some(InvalidLines); }
      var accounts := AccountsOf(draft.lines);
      if !(accounts <= chart.Keys) { return Some(UnknownAccount); }
      if draft.source == None {
        if exists a :: a in accounts && IsControl(chart, a) { return Some(ControlAccount); }
      }
      error := ResolveAndLockPeriod(draft.date);
      if error.Some? { return; }
      var no := AllocateEntryNo(draft.date.year);
      var built := BuildLines(draft.lines, false);
      if draft.source.Some? && exists e :: e in entries && e.source == Some(draft.source.value) {
        return Some(SourceConflict);
      }
      entries := entries + [Entry(no, draft.date, draft.source, None, built)];
      return None;
    }

    method PostReversal(id: nat, today: Date) returns (error: Option<Error>)
      modifies this`entries, this`nextNo
      ensures match Reverse(old(State()), id, today)
              case Done(after) => error == None && State() == after
              case Failed(e) => error == Some(e) && State() == old(State())
    {
      if id >= |entries| { return Some(NotFound); }
      var original := entries[id];
      if original.reversalOf != None { return Some(ReversalNotAllowed); }
      if exists e :: e in entries && e.reversalOf == Some(id) { return Some(ReversalNotAllowed); }
      var accounts := AccountsOf(original.lines);
      if exists a :: a in accounts && IsControl(chart, a) { return Some(ControlAccount); }
      error := ResolveAndLockPeriod(today);
      if error.Some? { return; }
      var no := AllocateEntryNo(today.year);
      var built := BuildLines(original.lines, true);
      entries := entries + [Entry(no, today, None, Some(id), built)];
      return None;
    }

    method ClosePeriod(month: Month) returns (error: Option<Error>)
      modifies this`periods
      ensures match Close(old(State()), month)
              case Done(after) => error == None && State() == after
              case Failed(e) => error == Some(e) && State() == old(State())
    {
      if month !in periods { return Some(NotFound); }
      if periods[month] == Open { periods := periods[month := Closed]; }
      assert periods == old(periods)[month := Closed];
      return None;
    }
  }
}
