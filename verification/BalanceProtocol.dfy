/** Receivables under concurrency: issues, receipts, allocations, voids and balance
    rebuilds interleave step by step, with row locks only, each posting to the control
    account in its own transaction. No advisory lock guards rows that do not exist yet;
    the proof says why none is needed. */
module BalanceProtocol {
  import opened Common
  import opened Sums
  import opened Receivables

  type TxId = nat

  /** A row that carries a maintained balance: a payment's allocated amount, or an
      invoice's settled amount. */
  datatype Account = OfPayment(payment: Id) | OfInvoice(invoice: Id)

  datatype Row = PaymentBalance(payment: Payment) | InvoiceBalance(invoice: Invoice)

  /** What the allocation rows say the balance is. */
  function SumFor(rows: seq<Allocation>, a: Account): int {
    match a
    case OfPayment(p) => DrawnFrom(rows, p)
    case OfInvoice(i) => SettledBy(rows, i)
  }

  function AmountIn(row: Row): int {
    match row
    case PaymentBalance(pay) => pay.drawn
    case InvoiceBalance(inv) => inv.settled
  }

  /** What the row adds to the receivables: an open amount, or an unapplied credit. */
  function Owing(row: Row): int {
    match row
    case PaymentBalance(pay) => -UnappliedOf(pay)
    case InvoiceBalance(inv) => OpenOf(inv)
  }

  function Voided(row: Row): Row {
    match row
    case PaymentBalance(pay) => PaymentBalance(pay.(status := PaymentVoid))
    case InvoiceBalance(inv) => InvoiceBalance(inv.(status := InvoiceVoid))
  }

  predicate IsVoid(row: Row) {
    match row
    case PaymentBalance(pay) => pay.status == PaymentVoid
    case InvoiceBalance(inv) => inv.status == InvoiceVoid
  }

  /** A row of the account's own table, with the positive total the schema demands. */
  predicate WellKept(a: Account, row: Row) {
    match row
    case PaymentBalance(pay) => a.OfPayment? && pay.amount > 0
    case InvoiceBalance(inv) => a.OfInvoice? && inv.total > 0
  }

  predicate Fresh(a: Account, row: Row) {
    WellKept(a, row) && AmountIn(row) == 0 &&
    match row
    case PaymentBalance(pay) => pay.status == Received
    case InvoiceBalance(inv) => inv.status == Unsettled
  }

  /** An issue, a receipt, an allocation or a void. `held` are the rows it has locked or
      inserted, as its session has them; `rows` are its uncommitted allocation rows; `due`
      is what it still has to post to the control account, `posted` what it has posted. */
  datatype Writer = Writer(held: map<Account, Row>, rows: seq<Allocation>, due: int, posted: int)

  /** A rebuild. It scans and locks the payments, then the invoices; `scope` is what the
      scans have returned so far. */
  datatype Rebuilder = Rebuilder(payments: bool, invoices: bool, scope: set<Account>, held: map<Account, Row>,
                                 totals: Option<map<Account, int>>, written: set<Account>)

  /** Committed balances, allocation rows and balance of the control account. `sound` names
      the rows that have to be as the allocation rows dictate: so at the start, inserted
      since, or rebuilt since. */
  datatype State = State(balances: map<Account, Row>, rows: seq<Allocation>, control: int,
                         writers: map<TxId, Writer>, rebuilders: map<TxId, Rebuilder>, sound: set<Account>)

  datatype WriterAction =
    | LockRow(account: Account)
    | InsertRow(account: Account, row: Row)
    | AddAllocation(payment: Id, invoice: Id, amount: int)
    | MarkVoid(account: Account)
    | PostEntry

  datatype RebuildAction =
    | ScanPayments
    | ScanInvoices
    | LockNext(account: Account)
    | SumRows
    | Overwrite(account: Account)

  datatype Action =
    | BeginWriter(t: TxId)
    | Write(t: TxId, step: WriterAction)
    | CommitWriter(t: TxId)
    | AbortWriter(t: TxId)
    | BeginRebuild(t: TxId)
    | Rework(t: TxId, part: RebuildAction)
    | CommitRebuild(t: TxId)
    | AbortRebuild(t: TxId)

  // ---------------------------------------------------------------------------
  // Steps
  // ---------------------------------------------------------------------------

  predicate Free(s: State, a: Account) {
    && (forall t :: t in s.writers ==> a !in s.writers[t].held)
    && (forall t :: t in s.rebuilders ==> a !in s.rebuilders[t].held)
  }

  /** The checks of one allocation line, on the locked rows. */
  predicate Allocatable(x: Row, y: Row, amount: int) {
    && x.PaymentBalance? && y.InvoiceBalance? && amount > 0
    && x.payment.status != PaymentVoid && y.invoice.status != InvoiceVoid
    && x.payment.customer == y.invoice.customer
    && x.payment.drawn + amount <= x.payment.amount
    && y.invoice.settled + amount <= y.invoice.total
  }

  function Drawn(x: Row, amount: int): Row
    requires x.PaymentBalance?
  {
    PaymentBalance(x.payment.(drawn := x.payment.drawn + amount))
  }

  function Settled(y: Row, amount: int): Row
    requires y.InvoiceBalance?
  {
    InvoiceBalance(SettleOne(y.invoice, amount))
  }

  function WriterNext(s: State, w: Writer, step: WriterAction): Option<Writer> {
    match step
    case LockRow(a) =>
      if a in s.balances && Free(s, a) then Some(w.(held := w.held[a := s.balances[a]])) else None
    case InsertRow(a, row) =>
      if a !in s.balances && Free(s, a) && Fresh(a, row)
      then Some(w.(held := w.held[a := row], due := w.due + Owing(row))) else None
    case AddAllocation(p, i, amount) =>
      var x, y := OfPayment(p), OfInvoice(i);
      if x in w.held && y in w.held && Allocatable(w.held[x], w.held[y], amount)
      then Some(w.(held := w.held[x := Drawn(w.held[x], amount)][y := Settled(w.held[y], amount)],
                   rows := w.rows + [Allocation(p, i, amount)]))
      else None
    case MarkVoid(a) =>
      if a in w.held && !IsVoid(w.held[a]) && AmountIn(w.held[a]) == 0
      then Some(w.(held := w.held[a := Voided(w.held[a])], due := w.due - Owing(w.held[a]))) else None
    case PostEntry => Some(w.(due := 0, posted := w.posted + w.due))
  }

  /** The payments, or the invoices, that are committed right now. */
  function Scan(s: State, payments: bool): set<Account> {
    set a | a in s.balances && a.OfPayment? == payments
  }

  function Rebuilt(row: Row, sum: int): Row {
    match row
    case PaymentBalance(pay) => PaymentBalance(pay.(drawn := sum))
    case InvoiceBalance(inv) => InvoiceBalance(RebuiltInvoice(inv, sum))
  }

  function RebuilderNext(s: State, r: Rebuilder, part: RebuildAction): Option<Rebuilder> {
    match part
    case ScanPayments =>
      if !r.payments then Some(r.(payments := true, scope := r.scope + Scan(s, true))) else None
    case ScanInvoices =>
      if r.payments && !r.invoices && r.scope <= r.held.Keys
      then Some(r.(invoices := true, scope := r.scope + Scan(s, false))) else None
    case LockNext(a) =>
      if a in r.scope && a in s.balances && Free(s, a) then Some(r.(held := r.held[a := s.balances[a]])) else None
    case SumRows =>
      if r.payments && r.invoices && r.scope <= r.held.Keys && r.totals == None
      then Some(r.(totals := Some(map a | a in r.scope :: SumFor(s.rows, a)))) else None
    case Overwrite(a) =>
      if r.totals.Some? && a in r.totals.value && a in r.held && a !in r.written
      then Some(r.(held := r.held[a := Rebuilt(r.held[a], r.totals.value[a])], written := r.written + {a})) else None
  }

  /** The CHECK constraints that fire when the rebuild is flushed. */
  predicate PassesChecks(row: Row) {
    && 0 <= AmountIn(row) && (IsVoid(row) ==> AmountIn(row) == 0) &&
    match row
    case PaymentBalance(pay) => pay.drawn <= pay.amount
    case InvoiceBalance(inv) => inv.settled <= inv.total
  }

  predicate RebuildReady(r: Rebuilder) {
    && r.totals.Some? && r.held.Keys <= r.written
    && forall a :: a in r.held ==> PassesChecks(r.held[a])
  }

  function Next(s: State, a: Action): State {
    match a
    case BeginWriter(t) => if t in s.writers then s else s.(writers := s.writers[t := Writer(map[], [], 0, 0)])
    case BeginRebuild(t) =>
      if t in s.rebuilders then s
      else s.(rebuilders := s.rebuilders[t := Rebuilder(false, false, {}, map[], None, {})])
    case Write(t, step) =>
      if t !in s.writers || WriterNext(s, s.writers[t], step) == None then s
      else s.(writers := s.writers[t := WriterNext(s, s.writers[t], step).value])
    case Rework(t, part) =>
      if t !in s.rebuilders || RebuilderNext(s, s.rebuilders[t], part) == None then s
      else s.(rebuilders := s.rebuilders[t := RebuilderNext(s, s.rebuilders[t], part).value])
    case CommitWriter(t) =>
      if t !in s.writers || s.writers[t].due != 0 then s else
      var w := s.writers[t];
      State(s.balances + w.held, s.rows + w.rows, s.control + w.posted, s.writers - {t}, s.rebuilders,
            s.sound + (w.held.Keys - s.balances.Keys))
    case CommitRebuild(t) =>
      if t !in s.rebuilders || !RebuildReady(s.rebuilders[t]) then s else
      var r := s.rebuilders[t];
      State(s.balances + r.held, s.rows, s.control, s.writers, s.rebuilders - {t}, s.sound + r.held.Keys)
    case AbortWriter(t) => s.(writers := s.writers - {t})
    case AbortRebuild(t) => s.(rebuilders := s.rebuilders - {t})
  }

  function Run(s: State, actions: seq<Action>): State
    decreases |actions|
  {
    if actions == [] then s else Run(Next(s, actions[0]), actions[1..])
  }

  // ---------------------------------------------------------------------------
  // Invariant
  // ---------------------------------------------------------------------------

  /** The row is as `sum` dictates: its amount, its bounds, and its status. */
  ghost predicate RowOk(row: Row, sum: int) {
    match row
    case PaymentBalance(pay) => PaymentOk(pay, sum)
    case InvoiceBalance(inv) => InvoiceOk(inv, sum)
  }

  function AmountOf(balances: map<Account, Row>, a: Account): int {
    if a in balances then AmountIn(balances[a]) else 0
  }

  predicate Touches(r: Allocation, a: Account) {
    a == OfPayment(r.payment) || a == OfInvoice(r.invoice)
  }

  /** Allocation rows speak of the given balances only. */
  ghost predicate RowsAbout(rows: seq<Allocation>, accounts: set<Account>) {
    forall r, a :: r in rows && Touches(r, a) ==> a in accounts
  }

  /** What a writer holds of an account: the committed amount plus its own allocation rows;
      in order, if the committed row is. */
  ghost predicate HeldOk(balances: map<Account, Row>, w: Writer, a: Account)
    requires a in w.held
  {
    && WellKept(a, w.held[a])
    && AmountIn(w.held[a]) == AmountOf(balances, a) + SumFor(w.rows, a)
    && (a !in balances || RowOk(balances[a], AmountIn(balances[a])) ==> RowOk(w.held[a], AmountIn(w.held[a])))
  }

  /** Committing what a writer holds would change the receivables by what it has posted and
      still has to post. */
  ghost predicate Accounted(balances: map<Account, Row>, w: Writer) {
    SumBy(balances + w.held, Owing) == SumBy(balances, Owing) + w.posted + w.due
  }

  ghost predicate WriterOk(balances: map<Account, Row>, w: Writer) {
    && (forall a :: a in w.held ==> HeldOk(balances, w, a))
    && RowsAbout(w.rows, w.held.Keys)
    && Accounted(balances, w)
  }

  /** A rebuild holds what it has scanned, its totals are still those of the committed
      rows, and whatever its scans did not return was inserted since. */
  ghost predicate RebuilderOk(s: State, r: Rebuilder) {
    && r.held.Keys <= r.scope <= s.balances.Keys
    && (r.payments ==> Scan(s, true) <= r.scope + s.sound)
    && (r.invoices ==> r.payments && Scan(s, false) <= r.scope + s.sound)
    && (forall a :: a in r.held && a !in r.written ==> r.held[a] == s.balances[a])
    && (r.totals == None ==> r.written == {})
    && (r.totals.Some? ==> RebuilderSummed(s, r))
  }

  ghost predicate RebuilderSummed(s: State, r: Rebuilder)
    requires r.totals.Some? && r.held.Keys <= s.balances.Keys
  {
    && r.payments && r.invoices && r.held.Keys == r.scope == r.totals.value.Keys
    && (forall a :: a in r.scope ==> r.totals.value[a] == SumFor(s.rows, a))
    && (forall a :: a in r.written ==> a in r.held && r.held[a] == Rebuilt(s.balances[a], r.totals.value[a]))
  }

  ghost predicate WritersOk(s: State) {
    forall t :: t in s.writers ==> WriterOk(s.balances, s.writers[t])
  }

  ghost predicate RebuildersOk(s: State) {
    forall t :: t in s.rebuilders ==> RebuilderOk(s, s.rebuilders[t])
  }

  ghost predicate Apart(s: State) {
    && (forall t, u :: t in s.writers && u in s.writers && t != u ==> s.writers[t].held.Keys !! s.writers[u].held.Keys)
    && (forall t, u :: t in s.rebuilders && u in s.rebuilders && t != u ==>
          s.rebuilders[t].held.Keys !! s.rebuilders[u].held.Keys)
    && (forall t, u :: t in s.writers && u in s.rebuilders ==> s.writers[t].held.Keys !! s.rebuilders[u].held.Keys)
  }

  ghost predicate SoundOnes(s: State) {
    forall a :: a in s.sound ==> a in s.balances && RowOk(s.balances[a], SumFor(s.rows, a))
  }

  ghost predicate TablesKept(s: State) {
    && (forall a :: a in s.balances ==> WellKept(a, s.balances[a]))
    && RowsAbout(s.rows, s.balances.Keys)
  }

  ghost predicate Invariant(s: State) {
    WritersOk(s) && RebuildersOk(s) && Apart(s) && SoundOnes(s) && TablesKept(s)
  }

  // ---------------------------------------------------------------------------
  // Sums
  // ---------------------------------------------------------------------------

  lemma SumConcat(x: seq<Allocation>, y: seq<Allocation>, a: Account)
    ensures SumFor(x + y, a) == SumFor(x, a) + SumFor(y, a)
  {
    match a
    case OfPayment(p) => RowsAppend(x, y, 0, p);
    case OfInvoice(i) => RowsAppend(x, y, i, 0);
  }

  lemma {:induction false} UntouchedIsZero(rows: seq<Allocation>, a: Account)
    requires forall r :: r in rows ==> !Touches(r, a)
    ensures SumFor(rows, a) == 0
    decreases |rows|
  {
    if rows != [] {
      assert rows[0] in rows;
      forall r | r in rows[1..] ensures r in rows {}
      UntouchedIsZero(rows[1..], a);
    }
  }

  lemma OutsideIsZero(rows: seq<Allocation>, accounts: set<Account>, a: Account)
    requires RowsAbout(rows, accounts) && a !in accounts
    ensures SumFor(rows, a) == 0
  {
    UntouchedIsZero(rows, a);
  }

  lemma OneRow(r: Allocation, a: Account)
    ensures SumFor([r], a) == if Touches(r, a) then r.amount else 0
  {
    assert [r][1..] == [];
    assert SumFor([], a) == 0;
  }

  /** Merging `n` is merging all of it but one row, and then that row. */
  lemma MergeOne<K, V>(m: map<K, V>, n: map<K, V>, f: V -> int, k: K)
    requires k in n
    ensures SumBy(m + n, f) == SumBy(m + (n - {k}), f) - (if k in m then f(m[k]) else 0) + f(n[k])
  {
    assert m + n == (m + (n - {k}))[k := n[k]];
    SumByUpdate(m + (n - {k}), f, k, n[k]);
  }

  /** What merging `n` into a table adds depends on the overwritten rows only. */
  lemma {:induction false} MergeDelta<K, V>(m: map<K, V>, o: map<K, V>, n: map<K, V>, f: V -> int)
    requires forall k :: k in n ==> (k in m <==> k in o) && (k in m ==> m[k] == o[k])
    ensures SumBy(m + n, f) - SumBy(m, f) == SumBy(o + n, f) - SumBy(o, f)
    decreases |n|
  {
    hide SumBy;
    if n == map[] {
      assert m + n == m && o + n == o;
    } else {
      var k := Pick(n);
      MergeDelta(m, o, n - {k}, f);
      MergeOne(m, n, f, k);
      MergeOne(o, n, f, k);
    }
  }

  // ---------------------------------------------------------------------------
  // Steps of one transaction
  // ---------------------------------------------------------------------------

  /** Rewriting one held row moves the account by the change of that row. */
  lemma HoldIsAccounted(balances: map<Account, Row>, held: map<Account, Row>, a: Account, row: Row)
    ensures SumBy(balances + held[a := row], Owing) == SumBy(balances + held, Owing) + Owing(row)
              - (if a in held then Owing(held[a]) else if a in balances then Owing(balances[a]) else 0)
  {
    assert balances + held[a := row] == (balances + held)[a := row];
    SumByUpdate(balances + held, Owing, a, row);
  }

  lemma LockStep(balances: map<Account, Row>, w: Writer, a: Account)
    requires WriterOk(balances, w) && a in balances && a !in w.held && WellKept(a, balances[a])
    ensures WriterOk(balances, w.(held := w.held[a := balances[a]]))
  {
    hide SumFor, RowOk, Owing, AmountIn;
    HoldIsAccounted(balances, w.held, a, balances[a]);
    OutsideIsZero(w.rows, w.held.Keys, a);
    var next := w.(held := w.held[a := balances[a]]);
    forall b | b in next.held ensures HeldOk(balances, next, b) {
      assert b != a ==> HeldOk(balances, w, b);
    }
  }

  lemma InsertStep(balances: map<Account, Row>, w: Writer, a: Account, row: Row)
    requires WriterOk(balances, w) && a !in balances && a !in w.held && Fresh(a, row)
    ensures WriterOk(balances, w.(held := w.held[a := row], due := w.due + Owing(row)))
  {
    hide SumFor, Owing;
    HoldIsAccounted(balances, w.held, a, row);
    OutsideIsZero(w.rows, w.held.Keys, a);
    var next := w.(held := w.held[a := row], due := w.due + Owing(row));
    assert RowOk(row, 0);
    forall b | b in next.held ensures HeldOk(balances, next, b) {
      assert b != a ==> HeldOk(balances, w, b);
    }
  }

  lemma VoidStep(balances: map<Account, Row>, w: Writer, a: Account)
    requires WriterOk(balances, w) && a in w.held && !IsVoid(w.held[a]) && AmountIn(w.held[a]) == 0
    ensures WriterOk(balances, w.(held := w.held[a := Voided(w.held[a])], due := w.due - Owing(w.held[a])))
  {
    hide SumFor;
    HoldIsAccounted(balances, w.held, a, Voided(w.held[a]));
    var next := w.(held := w.held[a := Voided(w.held[a])], due := w.due - Owing(w.held[a]));
    forall b | b in next.held ensures HeldOk(balances, next, b) {
      assert HeldOk(balances, w, b);
    }
  }

  /** One allocation line keeps both rows within their bounds and their status derived, and
      moves the same amount out of the open and the unapplied side. */
  lemma AllocatedRows(x: Row, y: Row, amount: int)
    requires Allocatable(x, y, amount)
    ensures RowOk(x, AmountIn(x)) ==> RowOk(Drawn(x, amount), AmountIn(x) + amount)
    ensures RowOk(y, AmountIn(y)) ==> RowOk(Settled(y, amount), AmountIn(y) + amount)
    ensures AmountIn(Drawn(x, amount)) == AmountIn(x) + amount && AmountIn(Settled(y, amount)) == AmountIn(y) + amount
    ensures Owing(Drawn(x, amount)) + Owing(Settled(y, amount)) == Owing(x) + Owing(y)
  {
  }

  lemma AllocationIsAccounted(balances: map<Account, Row>, w: Writer, x: Account, y: Account, amount: int)
    requires Accounted(balances, w) && x in w.held && y in w.held && x != y
    requires Allocatable(w.held[x], w.held[y], amount)
    ensures Accounted(balances, w.(held := w.held[x := Drawn(w.held[x], amount)][y := Settled(w.held[y], amount)]))
  {
    hide Owing;
    AllocatedRows(w.held[x], w.held[y], amount);
    HoldIsAccounted(balances, w.held, x, Drawn(w.held[x], amount));
    HoldIsAccounted(balances, w.held[x := Drawn(w.held[x], amount)], y, Settled(w.held[y], amount));
  }

  lemma AllocationStep(balances: map<Account, Row>, w: Writer, p: Id, i: Id, amount: int)
    requires WriterOk(balances, w) && OfPayment(p) in w.held && OfInvoice(i) in w.held
    requires Allocatable(w.held[OfPayment(p)], w.held[OfInvoice(i)], amount)
    ensures var x, y := OfPayment(p), OfInvoice(i);
            WriterOk(balances, w.(held := w.held[x := Drawn(w.held[x], amount)][y := Settled(w.held[y], amount)],
                                  rows := w.rows + [Allocation(p, i, amount)]))
  {
    hide SumFor, RowOk, AmountIn, Owing;
    var x, y, r := OfPayment(p), OfInvoice(i), Allocation(p, i, amount);
    AllocatedRows(w.held[x], w.held[y], amount);
    AllocationIsAccounted(balances, w, x, y, amount);
    var next := w.(held := w.held[x := Drawn(w.held[x], amount)][y := Settled(w.held[y], amount)],
                   rows := w.rows + [r]);
    forall a | a in next.held ensures HeldOk(balances, next, a) {
      assert HeldOk(balances, w, a);
      SumConcat(w.rows, [r], a);
      OneRow(r, a);
    }
    assert RowsAbout(next.rows, next.held.Keys);
  }

  lemma WriterStep(s: State, t: TxId, step: WriterAction)
    requires t in s.writers && WriterOk(s.balances, s.writers[t]) && TablesKept(s)
    requires WriterNext(s, s.writers[t], step).Some?
    ensures var w := WriterNext(s, s.writers[t], step).value;
            && WriterOk(s.balances, w)
            && forall a :: a in w.held ==> a in s.writers[t].held || Free(s, a)
  {
    hide WriterOk, SumFor, Allocatable, Fresh, WellKept, Owing, AmountIn, IsVoid;
    var w := s.writers[t];
    match step {
      case LockRow(a) => assert a !in w.held; LockStep(s.balances, w, a);
      case InsertRow(a, row) => assert a !in w.held; InsertStep(s.balances, w, a, row);
      case AddAllocation(p, i, amount) => AllocationStep(s.balances, w, p, i, amount);
      case MarkVoid(a) => VoidStep(s.balances, w, a);
      case PostEntry => PostStep(s.balances, w);
    }
  }

  lemma PostStep(balances: map<Account, Row>, w: Writer)
    requires WriterOk(balances, w)
    ensures WriterOk(balances, w.(due := 0, posted := w.posted + w.due))
  {
    hide SumFor, RowOk;
    var next := w.(due := 0, posted := w.posted + w.due);
    forall a | a in next.held ensures HeldOk(balances, next, a) { assert HeldOk(balances, w, a); }
  }

  lemma SameData(s: State, u: State)
    requires s.balances == u.balances && s.rows == u.rows && s.sound == u.sound
    ensures forall r :: RebuilderOk(s, r) ==> RebuilderOk(u, r)
    ensures SoundOnes(s) ==> SoundOnes(u)
    ensures TablesKept(s) ==> TablesKept(u)
  {
    hide SumFor, RowOk, WellKept;
    assert Scan(s, true) == Scan(u, true) && Scan(s, false) == Scan(u, false);
  }

  lemma WriterMovesOn(s: State, t: TxId, step: WriterAction)
    requires Invariant(s)
    ensures Invariant(Next(s, Write(t, step)))
  {
    hide WriterOk, RebuilderOk, SoundOnes, WriterNext, TablesKept;
    if t in s.writers && WriterNext(s, s.writers[t], step).Some? {
      WriterStep(s, t, step);
      SameData(s, Next(s, Write(t, step)));
    }
  }

  lemma RebuilderStep(s: State, t: TxId, part: RebuildAction)
    requires t in s.rebuilders && RebuilderOk(s, s.rebuilders[t]) && RebuilderNext(s, s.rebuilders[t], part).Some?
    ensures var r := RebuilderNext(s, s.rebuilders[t], part).value;
            && RebuilderOk(s, r)
            && forall a :: a in r.held ==> a in s.rebuilders[t].held || Free(s, a)
  {
    hide SumFor, Rebuilt;
    var r := s.rebuilders[t];
    match part {
      case SumRows => assert r.scope == r.held.Keys;
      case LockNext(a) => assert a !in r.held;
      case _ =>
    }
  }

  lemma RebuilderMovesOn(s: State, t: TxId, part: RebuildAction)
    requires Invariant(s)
    ensures Invariant(Next(s, Rework(t, part)))
  {
    hide WriterOk, RebuilderOk, SoundOnes, RebuilderNext, TablesKept;
    if t in s.rebuilders && RebuilderNext(s, s.rebuilders[t], part).Some? {
      RebuilderStep(s, t, part);
      SameData(s, Next(s, Rework(t, part)));
    }
  }

  lemma NewcomerIsOk(s: State)
    ensures WriterOk(s.balances, Writer(map[], [], 0, 0))
    ensures RebuilderOk(s, Rebuilder(false, false, {}, map[], None, {}))
  {
    assert s.balances + map[] == s.balances;
  }

  lemma WriterBegins(s: State, t: TxId)
    requires Invariant(s)
    ensures Invariant(Next(s, BeginWriter(t)))
  {
    hide WriterOk, RebuilderOk, SoundOnes, TablesKept;
    NewcomerIsOk(s);
    SameData(s, Next(s, BeginWriter(t)));
  }

  lemma RebuildBegins(s: State, t: TxId)
    requires Invariant(s)
    ensures Invariant(Next(s, BeginRebuild(t)))
  {
    hide WriterOk, RebuilderOk, SoundOnes, TablesKept;
    NewcomerIsOk(s);
    SameData(s, Next(s, BeginRebuild(t)));
  }

  lemma TransactionsAbort(s: State, a: Action)
    requires Invariant(s) && (a.AbortWriter? || a.AbortRebuild?)
    ensures Invariant(Next(s, a))
  {
    hide WriterOk, RebuilderOk, SoundOnes, TablesKept;
    SameData(s, Next(s, a));
  }

  // ---------------------------------------------------------------------------
  // Commits
  // ---------------------------------------------------------------------------

  /** Committing moves a held balance and its sum alike, keeps it in order, and leaves the
      other rows alone. */
  lemma WriterCommits(s: State, w: Writer, a: Account)
    requires WriterOk(s.balances, w)
    ensures SumFor(s.rows + w.rows, a) == SumFor(s.rows, a) + SumFor(w.rows, a)
    ensures AmountOf(s.balances + w.held, a) == AmountOf(s.balances, a) + SumFor(w.rows, a)
    ensures a !in w.held ==> SumFor(w.rows, a) == 0
    ensures a in w.held && a in s.balances && RowOk(s.balances[a], SumFor(s.rows, a)) ==>
              RowOk(w.held[a], SumFor(s.rows + w.rows, a))
    ensures a in w.held && a !in s.balances && SumFor(s.rows, a) == 0 ==>
              RowOk(w.held[a], SumFor(s.rows + w.rows, a))
  {
    hide SumFor;
    SumConcat(s.rows, w.rows, a);
    if a !in w.held { OutsideIsZero(w.rows, w.held.Keys, a); } else { assert HeldOk(s.balances, w, a); }
  }

  lemma WriterCommitKeepsSound(s: State, t: TxId)
    requires TablesKept(s) && SoundOnes(s) && t in s.writers && s.writers[t].due == 0
    requires WriterOk(s.balances, s.writers[t])
    ensures SoundOnes(Next(s, CommitWriter(t)))
  {
    hide SumFor, RowOk, WriterOk, AmountIn, WellKept, RowsAbout;
    var after := Next(s, CommitWriter(t));
    var w := s.writers[t];
    forall a | a in after.sound ensures a in after.balances && RowOk(after.balances[a], SumFor(after.rows, a)) {
      WriterCommits(s, w, a);
      if a !in s.balances { OutsideIsZero(s.rows, s.balances.Keys, a); }
    }
  }

  lemma WriterCommitKeepsTables(s: State, t: TxId)
    requires TablesKept(s) && t in s.writers && s.writers[t].due == 0 && WriterOk(s.balances, s.writers[t])
    ensures TablesKept(Next(s, CommitWriter(t)))
  {
    hide SumFor, RowOk, WellKept;
    var after := Next(s, CommitWriter(t));
    var w := s.writers[t];
    forall a | a in after.balances ensures WellKept(a, after.balances[a]) {
      assert a in w.held ==> HeldOk(s.balances, w, a);
    }
  }

  /** Another writer's rows do not change under a commit of disjoint rows. */
  lemma OtherWriterStands(balances: map<Account, Row>, held: map<Account, Row>, v: Writer)
    requires WriterOk(balances, v) && v.held.Keys !! held.Keys
    ensures WriterOk(balances + held, v)
  {
    hide SumFor, RowOk, Owing;
    forall a | a in v.held ensures HeldOk(balances + held, v, a) { assert HeldOk(balances, v, a); }
    MergeDelta(balances, balances + held, v.held, Owing);
  }

  /** A rebuild does not notice a writer's commit: they hold different rows, and rows that
      its scans missed enter as sound. */
  lemma RebuilderStands(s: State, t: TxId, r: Rebuilder)
    requires t in s.writers && s.writers[t].due == 0 && WriterOk(s.balances, s.writers[t])
    requires RebuilderOk(s, r) && s.writers[t].held.Keys !! r.held.Keys
    ensures RebuilderOk(Next(s, CommitWriter(t)), r)
  {
    hide SumFor, RowOk, WriterOk, Rebuilt;
    var after := Next(s, CommitWriter(t));
    forall a | a in r.held ensures SumFor(after.rows, a) == SumFor(s.rows, a) {
      WriterCommits(s, s.writers[t], a);
    }
    forall a | a in after.balances && a !in s.balances ensures a in after.sound {}
    assert forall b :: Scan(after, b) <= Scan(s, b) + after.sound;
    assert r.payments ==> Scan(after, true) <= r.scope + after.sound;
    assert r.invoices ==> Scan(after, false) <= r.scope + after.sound;
    assert r.scope <= after.balances.Keys;
  }

  lemma WriterCommitStep(s: State, t: TxId)
    requires Invariant(s) && t in s.writers && s.writers[t].due == 0
    ensures Invariant(Next(s, CommitWriter(t)))
  {
    hide SumFor, WriterOk, RebuilderOk, SoundOnes, TablesKept;
    var after := Next(s, CommitWriter(t));
    WriterCommitKeepsSound(s, t);
    WriterCommitKeepsTables(s, t);
    forall u | u in after.writers ensures WriterOk(after.balances, after.writers[u]) {
      OtherWriterStands(s.balances, s.writers[t].held, s.writers[u]);
    }
    forall u | u in after.rebuilders ensures RebuilderOk(after, after.rebuilders[u]) {
      RebuilderStands(s, t, s.rebuilders[u]);
    }
  }

  /** What a rebuild commits for a row is what the rows committed by then dictate. */
  lemma RebuildCommits(s: State, r: Rebuilder, a: Account)
    requires RebuilderOk(s, r) && RebuildReady(r) && a in r.held && WellKept(a, s.balances[a])
    ensures a in s.balances && r.held[a] == Rebuilt(s.balances[a], SumFor(s.rows, a))
    ensures RowOk(r.held[a], SumFor(s.rows, a)) && WellKept(a, r.held[a])
    ensures RowOk(s.balances[a], SumFor(s.rows, a)) ==> r.held[a] == s.balances[a]
  {
    hide SumFor;
    assert a in r.written && r.held[a] == Rebuilt(s.balances[a], r.totals.value[a]);
    assert PassesChecks(r.held[a]);
  }

  lemma RebuilderStandsBeside(s: State, t: TxId, r: Rebuilder)
    requires t in s.rebuilders && RebuildReady(s.rebuilders[t]) && s.rebuilders[t].held.Keys !! r.held.Keys
    requires RebuilderOk(s, s.rebuilders[t]) && RebuilderOk(s, r)
    ensures RebuilderOk(Next(s, CommitRebuild(t)), r)
  {
    hide SumFor, Rebuilt, PassesChecks;
    var after := Next(s, CommitRebuild(t));
    assert after.balances.Keys == s.balances.Keys;
    assert Scan(after, true) == Scan(s, true) && Scan(after, false) == Scan(s, false);
  }

  lemma RebuildCommitKeepsRows(s: State, t: TxId)
    requires SoundOnes(s) && TablesKept(s) && t in s.rebuilders && RebuildReady(s.rebuilders[t])
    requires RebuilderOk(s, s.rebuilders[t])
    ensures SoundOnes(Next(s, CommitRebuild(t))) && TablesKept(Next(s, CommitRebuild(t)))
    ensures Next(s, CommitRebuild(t)).balances.Keys == s.balances.Keys
  {
    hide SumFor, RowOk, RebuildReady, WellKept;
    var after := Next(s, CommitRebuild(t));
    var r := s.rebuilders[t];
    forall a | a in r.held ensures RowOk(r.held[a], SumFor(s.rows, a)) && WellKept(a, r.held[a]) {
      RebuildCommits(s, r, a);
    }
    assert after.balances.Keys == s.balances.Keys;
  }

  lemma RebuildCommitStep(s: State, t: TxId)
    requires Invariant(s) && t in s.rebuilders && RebuildReady(s.rebuilders[t])
    ensures Invariant(Next(s, CommitRebuild(t)))
  {
    hide SumFor, WriterOk, RebuilderOk, RebuildReady, SoundOnes, TablesKept;
    var after := Next(s, CommitRebuild(t));
    RebuildCommitKeepsRows(s, t);
    forall u | u in after.writers ensures WriterOk(after.balances, after.writers[u]) {
      OtherWriterStands(s.balances, s.rebuilders[t].held, s.writers[u]);
    }
    forall u | u in after.rebuilders ensures RebuilderOk(after, after.rebuilders[u]) {
      RebuilderStandsBeside(s, t, s.rebuilders[u]);
    }
  }

  // ---------------------------------------------------------------------------
  // Every run
  // ---------------------------------------------------------------------------

  lemma StepKeeps(s: State, a: Action)
    requires Invariant(s)
    ensures Invariant(Next(s, a))
  {
    hide Invariant;
    match a {
      case CommitWriter(t) => if t in s.writers && s.writers[t].due == 0 { WriterCommitStep(s, t); }
      case CommitRebuild(t) => if t in s.rebuilders && RebuildReady(s.rebuilders[t]) { RebuildCommitStep(s, t); }
      case Write(t, step) => WriterMovesOn(s, t, step);
      case Rework(t, part) => RebuilderMovesOn(s, t, part);
      case BeginWriter(t) => WriterBegins(s, t);
      case BeginRebuild(t) => RebuildBegins(s, t);
      case _ => TransactionsAbort(s, a);
    }
  }

  /** Every committed row is sound. */
  ghost predicate AllSound(s: State) { s.balances.Keys <= s.sound }

  /** The control account is what the committed rows say is owed. */
  ghost predicate Tied(s: State) { s.control == SumBy(s.balances, Owing) }

  lemma SoundnessStays(s: State, a: Action)
    requires Invariant(s)
    ensures s.sound <= Next(s, a).sound && (AllSound(s) ==> AllSound(Next(s, a)))
  {
    hide WritersOk, Apart, SoundOnes, TablesKept, RebuildReady, SumFor;
    if a.CommitRebuild? && a.t in s.rebuilders { assert RebuilderOk(s, s.rebuilders[a.t]); }
  }

  /** A commit moves the control account and the receivables alike; a rebuild of sound rows
      moves neither. */
  lemma TieStays(s: State, a: Action)
    requires Invariant(s) && AllSound(s) && Tied(s)
    ensures Tied(Next(s, a))
  {
    hide SumFor, RowOk, Owing, WellKept, RebuildReady, RebuilderNext, WriterNext;
    if a.CommitWriter? && a.t in s.writers {
      assert WriterOk(s.balances, s.writers[a.t]);
    }
    if a.CommitRebuild? && a.t in s.rebuilders && RebuildReady(s.rebuilders[a.t]) {
      var r := s.rebuilders[a.t];
      assert RebuilderOk(s, r);
      forall b | b in r.held ensures r.held[b] == s.balances[b] { RebuildCommits(s, r, b); }
      assert s.balances + r.held == s.balances;
    }
  }

  lemma {:induction false} RunKeeps(s: State, actions: seq<Action>)
    requires Invariant(s)
    ensures Invariant(Run(s, actions)) && s.sound <= Run(s, actions).sound
    ensures AllSound(s) ==> AllSound(Run(s, actions))
    ensures AllSound(s) && Tied(s) ==> Tied(Run(s, actions))
    decreases |actions|
  {
    hide Invariant, Tied, AllSound;
    if actions != [] {
      StepKeeps(s, actions[0]);
      SoundnessStays(s, actions[0]);
      if AllSound(s) && Tied(s) { TieStays(s, actions[0]); }
      RunKeeps(Next(s, actions[0]), actions[1..]);
    }
  }

  /** No transaction is running, the tables meet their schema, and `sound` names rows that
      are as the allocation rows dictate. */
  ghost predicate Quiet(s: State) {
    s.writers == map[] && s.rebuilders == map[] && SoundOnes(s) && TablesKept(s)
  }

  /** From a quiet start, in every committed state of every interleaving, every sound row
      has the sum of its committed allocation rows, is within its total, and has exactly
      the status that sum dictates. */
  lemma CommittedBalancesMatch(s: State, actions: seq<Action>, a: Account)
    requires Quiet(s) && a in Run(s, actions).sound
    ensures a in Run(s, actions).balances && RowOk(Run(s, actions).balances[a], SumFor(Run(s, actions).rows, a))
  {
    hide SumFor, RowOk;
    RunKeeps(s, actions);
  }

  /** When a rebuild commits, every row is sound, also those its scans could not see; and
      every row stays so. */
  lemma RebuildMakesAllSound(s: State, actions: seq<Action>, t: TxId, later: seq<Action>, a: Account)
    requires Quiet(s)
    requires t in Run(s, actions).rebuilders && RebuildReady(Run(s, actions).rebuilders[t])
    ensures var after := Run(Next(Run(s, actions), CommitRebuild(t)), later);
            a in after.balances ==> RowOk(after.balances[a], SumFor(after.rows, a))
  {
    hide SumFor, RowOk, RebuildReady;
    var now := Run(s, actions);
    RunKeeps(s, actions);
    ReadyIsSummed(now.rebuilders[t]);
    EverythingIsCovered(now, now.rebuilders[t]);
    StepKeeps(now, CommitRebuild(t));
    RunKeeps(Next(now, CommitRebuild(t)), later);
  }

  lemma ReadyIsSummed(r: Rebuilder)
    requires RebuildReady(r)
    ensures r.totals.Some?
  {
  }

  lemma EverythingIsCovered(s: State, r: Rebuilder)
    requires RebuilderOk(s, r) && r.totals.Some?
    ensures s.balances.Keys <= r.held.Keys + s.sound
  {
    hide SumFor, Rebuilt;
    forall b | b in s.balances ensures b in r.held || b in s.sound {
      assert b in Scan(s, true) || b in Scan(s, false);
    }
  }

  function InvoiceRows(balances: map<Account, Row>): map<Account, Invoice> {
    map a | a in balances && balances[a].InvoiceBalance? :: balances[a].invoice
  }

  function PaymentRows(balances: map<Account, Row>): map<Account, Payment> {
    map a | a in balances && balances[a].PaymentBalance? :: balances[a].payment
  }

  function OpenIn(row: Row): int { if row.InvoiceBalance? then OpenOf(row.invoice) else 0 }
  function CreditIn(row: Row): int { if row.PaymentBalance? then -UnappliedOf(row.payment) else 0 }

  /** The receivables, table by table. */
  lemma OwingByTable(balances: map<Account, Row>)
    ensures SumBy(balances, Owing) == SumBy(InvoiceRows(balances), OpenOf) - SumBy(PaymentRows(balances), UnappliedOf)
  {
    SumByAdd(balances, OpenIn, CreditIn, Owing);
    SumByFiltered(balances, InvoiceRows(balances), OpenIn, OpenOf);
    CreditsByTable(balances);
  }

  lemma CreditsByTable(balances: map<Account, Row>)
    ensures SumBy(balances, CreditIn) == -SumBy(PaymentRows(balances), UnappliedOf)
  {
    var payments := PaymentRows(balances);
    forall a | a in balances
      ensures CreditIn(balances[a]) == if a in payments then Negated(UnappliedOf)(payments[a]) else 0
    {
      if a in payments { assert Negated(UnappliedOf)(payments[a]) == -UnappliedOf(payments[a]); }
    }
    SumByFiltered(balances, payments, CreditIn, Negated(UnappliedOf));
    SumByNegated(payments, UnappliedOf);
  }

  /** From a quiet, sound and tied start, in every committed state of every interleaving of
      issues, receipts, allocations, voids and rebuilds, the control account equals open
      invoices less unapplied payments. */
  lemma ControlTiesOutThroughout(s: State, actions: seq<Action>)
    requires Quiet(s) && AllSound(s) && Tied(s)
    ensures var now := Run(s, actions);
            now.control == SumBy(InvoiceRows(now.balances), OpenOf) - SumBy(PaymentRows(now.balances), UnappliedOf)
  {
    RunKeeps(s, actions);
    OwingByTable(Run(s, actions).balances);
  }
}
