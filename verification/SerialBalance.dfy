/** Every change a service call makes to invoices, payments, allocations and the control
    account, and every rebuild from whatever drift, is a run of the balance protocol: its
    guards are no stricter than the services'. */
module SerialBalance {
  import opened Common
  import opened Schedules
  import opened Decimals
  import opened Ledger
  import opened Posting
  import opened Inventory
  import opened Fingerprint
  import opened Receivables
  import opened Sales
  import opened Credit
  import opened Kernel
  import opened Reachable
  import opened ReceivableEffects
  import P = BalanceProtocol

  // ---------------------------------------------------------------------------
  // The kernel's tables as the protocol sees them
  // ---------------------------------------------------------------------------

  function AccountsIn(ar: Ar): set<P.Account> {
    (set p | p in ar.payments :: P.OfPayment(p)) + (set i | i in ar.invoices :: P.OfInvoice(i))
  }

  function RowIn(ar: Ar, a: P.Account): P.Row
    requires a in AccountsIn(ar)
  {
    match a
    case OfPayment(p) => P.PaymentBalance(ar.payments[p])
    case OfInvoice(i) => P.InvoiceBalance(ar.invoices[i])
  }

  function BalancesOf(ar: Ar): map<P.Account, P.Row> {
    map a | a in AccountsIn(ar) :: RowIn(ar, a)
  }

  lemma InvoiceWritten(ar: Ar, i: Id, row: Invoice)
    ensures BalancesOf(ar.(invoices := ar.invoices[i := row])) ==
              BalancesOf(ar)[P.OfInvoice(i) := P.InvoiceBalance(row)]
  {
    var after := ar.(invoices := ar.invoices[i := row]);
    assert AccountsIn(after) == AccountsIn(ar) + {P.OfInvoice(i)};
  }

  lemma PaymentWritten(ar: Ar, p: Id, row: Payment)
    ensures BalancesOf(ar.(payments := ar.payments[p := row])) ==
              BalancesOf(ar)[P.OfPayment(p) := P.PaymentBalance(row)]
  {
    var after := ar.(payments := ar.payments[p := row]);
    assert AccountsIn(after) == AccountsIn(ar) + {P.OfPayment(p)};
  }

  /** The protocol's committed rows and control balance are the company's, and nobody is at
      work. */
  ghost predicate Mirrors(ar: Ar, control: int, s: P.State) {
    && s.balances == BalancesOf(ar) && s.rows == ar.allocations && s.control == control
    && s.writers == map[] && s.rebuilders == map[]
  }

  ghost predicate Reproduces(s: P.State, ar: Ar, control: int) {
    exists u :: Reaches(P.Next, s, u) && Mirrors(ar, control, u)
  }

  const TX: P.TxId := 0
  const NEWCOMER := P.Writer(map[], [], 0, 0)

  // ---------------------------------------------------------------------------
  // A writer alone
  // ---------------------------------------------------------------------------

  function At(s: P.State, w: P.Writer): P.State { s.(writers := map[TX := w]) }

  lemma Begins(s: P.State)
    requires s.writers == map[]
    ensures Reaches(P.Next, s, At(s, NEWCOMER))
  {
    hide Reaches;
    Stays(P.Next, s);
    Then(P.Next, s, s, P.BeginWriter(TX));
    assert P.Next(s, P.BeginWriter(TX)) == At(s, NEWCOMER);
  }

  lemma Goes(s: P.State, w: P.Writer, a: P.WriterAction, next: P.Writer)
    requires Reaches(P.Next, s, At(s, w)) && P.WriterNext(At(s, w), w, a) == Some(next)
    ensures Reaches(P.Next, s, At(s, next))
  {
    hide P.WriterNext, Reaches;
    Then(P.Next, s, At(s, w), P.Write(TX, a));
    assert P.Next(At(s, w), P.Write(TX, a)) == At(s, next);
  }

  /** Posting what is due and committing. */
  lemma Commits(s: P.State, w: P.Writer, ar: Ar)
    requires Reaches(P.Next, s, At(s, w)) && s.writers == map[] && s.rebuilders == map[]
    requires s.balances + w.held == BalancesOf(ar) && s.rows + w.rows == ar.allocations
    ensures Reproduces(s, ar, s.control + w.posted + w.due)
  {
    hide Reaches, BalancesOf;
    var posted := w.(due := 0, posted := w.posted + w.due);
    Goes(s, w, P.PostEntry, posted);
    Then(P.Next, s, At(s, posted), P.CommitWriter(TX));
    var u := P.Next(At(s, posted), P.CommitWriter(TX));
    assert At(s, posted).writers - {TX} == map[];
    assert Mirrors(ar, s.control + w.posted + w.due, u);
  }

  lemma NothingRuns(s: P.State, ar: Ar, control: int)
    requires Mirrors(ar, control, s)
    ensures Reproduces(s, ar, control)
  {
    hide Reaches;
    Stays(P.Next, s);
  }

  lemma OnlyHeld(balances: map<P.Account, P.Row>, a: P.Account, row: P.Row)
    ensures balances + map[][a := row] == balances[a := row]
  {
  }

  lemma Inserts(s: P.State, a: P.Account, row: P.Row)
    requires s.writers == map[] && s.rebuilders == map[] && a !in s.balances && P.Fresh(a, row)
    ensures Reaches(P.Next, s, At(s, P.Writer(map[][a := row], [], P.Owing(row), 0)))
  {
    hide Reaches;
    Begins(s);
    Goes(s, NEWCOMER, P.InsertRow(a, row), P.Writer(map[][a := row], [], P.Owing(row), 0));
  }

  lemma IssuingRuns(s: P.State, ar: Ar, control: int, id: Id, row: Invoice)
    requires Mirrors(ar, control, s) && id !in ar.invoices
    requires row.total > 0 && row.settled == 0 && row.status == Unsettled
    ensures Reproduces(s, ar.(invoices := ar.invoices[id := row]), control + row.total)
  {
    hide Reaches, Reproduces;
    var a, x := P.OfInvoice(id), P.InvoiceBalance(row);
    Inserts(s, a, x);
    InvoiceWritten(ar, id, row);
    OnlyHeld(s.balances, a, x);
    Commits(s, P.Writer(map[][a := x], [], row.total, 0), ar.(invoices := ar.invoices[id := row]));
  }

  lemma ReceiptRuns(s: P.State, ar: Ar, control: int, id: Id, row: Payment)
    requires Mirrors(ar, control, s) && id !in ar.payments
    requires row.amount > 0 && row.drawn == 0 && row.status == Received
    ensures Reproduces(s, ar.(payments := ar.payments[id := row]), control - row.amount)
  {
    hide Reaches, Reproduces;
    var a, x := P.OfPayment(id), P.PaymentBalance(row);
    Inserts(s, a, x);
    PaymentWritten(ar, id, row);
    OnlyHeld(s.balances, a, x);
    Commits(s, P.Writer(map[][a := x], [], -row.amount, 0), ar.(payments := ar.payments[id := row]));
  }

  /** Locks a row, marks it void, and owes what it owed. */
  lemma Voids(s: P.State, a: P.Account)
    requires s.writers == map[] && s.rebuilders == map[] && a in s.balances
    requires !P.IsVoid(s.balances[a]) && P.AmountIn(s.balances[a]) == 0
    ensures var row := s.balances[a];
            Reaches(P.Next, s, At(s, P.Writer(map[][a := P.Voided(row)], [], -P.Owing(row), 0)))
  {
    hide Reaches, P.IsVoid, P.AmountIn, P.Voided, P.Owing;
    var row := s.balances[a];
    var locked := NEWCOMER.(held := map[][a := row]);
    Begins(s);
    Goes(s, NEWCOMER, P.LockRow(a), locked);
    assert map[][a := row][a := P.Voided(row)] == map[][a := P.Voided(row)];
    Goes(s, locked, P.MarkVoid(a), P.Writer(map[][a := P.Voided(row)], [], -P.Owing(row), 0));
  }

  lemma VoidingRuns(s: P.State, ar: Ar, control: int, id: Id)
    requires Mirrors(ar, control, s) && id in ar.invoices
    requires ar.invoices[id].status != InvoiceVoid && ar.invoices[id].settled == 0
    ensures var row := ar.invoices[id];
            Reproduces(s, ar.(invoices := ar.invoices[id := row.(status := InvoiceVoid)]), control - row.total)
  {
    hide Reaches, Reproduces;
    var a, row := P.OfInvoice(id), ar.invoices[id];
    var after := row.(status := InvoiceVoid);
    Voids(s, a);
    InvoiceWritten(ar, id, after);
    OnlyHeld(s.balances, a, P.InvoiceBalance(after));
    Commits(s, P.Writer(map[][a := P.InvoiceBalance(after)], [], -row.total, 0),
            ar.(invoices := ar.invoices[id := after]));
  }

  lemma VoidReceiptRuns(s: P.State, ar: Ar, control: int, id: Id)
    requires Mirrors(ar, control, s) && id in ar.payments
    requires ar.payments[id].status == Received && ar.payments[id].drawn == 0
    ensures var row := ar.payments[id];
            Reproduces(s, ar.(payments := ar.payments[id := row.(status := PaymentVoid)]), control + row.amount)
  {
    hide Reaches, Reproduces;
    var a, row := P.OfPayment(id), ar.payments[id];
    var after := row.(status := PaymentVoid);
    Voids(s, a);
    PaymentWritten(ar, id, after);
    OnlyHeld(s.balances, a, P.PaymentBalance(after));
    Commits(s, P.Writer(map[][a := P.PaymentBalance(after)], [], row.amount, 0),
            ar.(payments := ar.payments[id := after]));
  }

  // ---------------------------------------------------------------------------
  // Allocating
  // ---------------------------------------------------------------------------

  /** `w` holds payment `p` as `pay` and its other rows, invoices, as in `invoices`. */
  ghost predicate Agrees(w: P.Writer, p: Id, pay: Payment, invoices: map<Id, Invoice>) {
    && P.OfPayment(p) in w.held && w.held[P.OfPayment(p)] == P.PaymentBalance(pay)
    && (forall a :: a in w.held ==> a == P.OfPayment(p) || a.OfInvoice?)
    && (forall i :: P.OfInvoice(i) in w.held ==>
          i in invoices && w.held[P.OfInvoice(i)] == P.InvoiceBalance(invoices[i]))
  }

  /** The invoices held are exactly those of the first `k` lines. */
  ghost predicate HoldsTargets(w: P.Writer, targets: seq<Target>, k: nat)
    requires k <= |targets|
  {
    && (forall j :: 0 <= j < k ==> P.OfInvoice(targets[j].invoice) in w.held)
    && forall i :: P.OfInvoice(i) in w.held ==> exists j :: 0 <= j < k && targets[j].invoice == i
  }

  lemma {:induction false} LocksInvoices(s: P.State, w: P.Writer, p: Id, pay: Payment, ar: Ar, targets: seq<Target>,
                                         k: nat)
    requires s.rebuilders == map[] && s.balances == BalancesOf(ar) && Reaches(P.Next, s, At(s, w))
    requires Agrees(w, p, pay, ar.invoices) && w.held.Keys == {P.OfPayment(p)}
    requires k <= |targets| && NoTwice(targets) && forall x :: x in targets ==> x.invoice in ar.invoices
    ensures exists v: P.Writer ::
              && Reaches(P.Next, s, At(s, v)) && Agrees(v, p, pay, ar.invoices) && v == w.(held := v.held)
              && HoldsTargets(v, targets, k)
    decreases k
  {
    hide Reaches, BalancesOf, Agrees, HoldsTargets;
    if k == 0 {
      assert w == w.(held := w.held);
      HoldsNone(w, p, targets);
    } else {
      LocksInvoices(s, w, p, pay, ar, targets, k - 1);
      var v: P.Writer :|
        && Reaches(P.Next, s, At(s, v)) && Agrees(v, p, pay, ar.invoices) && v == w.(held := v.held)
        && HoldsTargets(v, targets, k - 1);
      var i := targets[k - 1].invoice;
      assert targets[k - 1] in targets;
      InvoiceIsListed(ar, i);
      OneInvoiceMore(v, p, pay, ar.invoices, targets, k);
      Goes(s, v, P.LockRow(P.OfInvoice(i)),
           v.(held := v.held[P.OfInvoice(i) := P.InvoiceBalance(ar.invoices[i])]));
    }
  }

  lemma HoldsNone(w: P.Writer, p: Id, targets: seq<Target>)
    requires w.held.Keys == {P.OfPayment(p)}
    ensures HoldsTargets(w, targets, 0)
  {
  }

  lemma OneInvoiceMore(v: P.Writer, p: Id, pay: Payment, invoices: map<Id, Invoice>, targets: seq<Target>, k: nat)
    requires 0 < k <= |targets| && NoTwice(targets) && targets[k - 1].invoice in invoices
    requires Agrees(v, p, pay, invoices) && HoldsTargets(v, targets, k - 1)
    ensures var i := targets[k - 1].invoice;
            var next := v.(held := v.held[P.OfInvoice(i) := P.InvoiceBalance(invoices[i])]);
            P.OfInvoice(i) !in v.held && Agrees(next, p, pay, invoices) && HoldsTargets(next, targets, k)
  {
  }

  lemma InvoiceIsListed(ar: Ar, i: Id)
    requires i in ar.invoices
    ensures P.OfInvoice(i) in BalancesOf(ar) && BalancesOf(ar)[P.OfInvoice(i)] == P.InvoiceBalance(ar.invoices[i])
  {
  }

  /** What the lines ask is there: on the payment, and on every targeted invoice. */
  ghost predicate Coverable(pay: Payment, invoices: map<Id, Invoice>, targets: seq<Target>) {
    && pay.status == Received && pay.drawn + Requested(targets) <= pay.amount
    && NoTwice(targets)
    && forall x :: x in targets ==>
         && x.amount > 0 && x.invoice in invoices && invoices[x.invoice].status != InvoiceVoid
         && invoices[x.invoice].customer == pay.customer
         && invoices[x.invoice].settled + x.amount <= invoices[x.invoice].total
  }

  lemma {:induction false} RequestedIsNonNegative(targets: seq<Target>)
    requires forall x :: x in targets ==> x.amount > 0
    ensures Requested(targets) >= 0
    decreases |targets|
  {
    if targets != [] {
      assert targets[0] in targets;
      forall x | x in targets[1..] ensures x.amount > 0 {}
      RequestedIsNonNegative(targets[1..]);
    }
  }

  lemma OneLineLess(pay: Payment, invoices: map<Id, Invoice>, targets: seq<Target>)
    requires Coverable(pay, invoices, targets) && targets != []
    ensures var x := targets[0];
            && x.invoice in invoices && x.amount > 0 && pay.drawn + x.amount <= pay.amount
            && pay.status == Received && invoices[x.invoice].status != InvoiceVoid
            && invoices[x.invoice].customer == pay.customer
            && invoices[x.invoice].settled + x.amount <= invoices[x.invoice].total
            && Coverable(pay.(drawn := pay.drawn + x.amount),
                         invoices[x.invoice := SettleOne(invoices[x.invoice], x.amount)], targets[1..])
  {
    var x, rest := targets[0], targets[1..];
    assert x in targets;
    forall y | y in rest ensures y in targets && y.invoice != x.invoice {
      var k :| 0 <= k < |rest| && rest[k] == y;
      assert targets[k + 1] == y;
    }
    forall i, j | 0 <= i < j < |rest| ensures rest[i].invoice != rest[j].invoice {
      assert targets[i + 1] == rest[i] && targets[j + 1] == rest[j];
    }
    RequestedIsNonNegative(rest);
  }

  /** The writer with one more line allocated. */
  function WithLine(w: P.Writer, p: Id, pay: Payment, inv: Invoice, x: Target): P.Writer {
    w.(held := w.held[P.OfPayment(p) := P.PaymentBalance(pay.(drawn := pay.drawn + x.amount))]
                     [P.OfInvoice(x.invoice) := P.InvoiceBalance(SettleOne(inv, x.amount))],
       rows := w.rows + [Allocation(p, x.invoice, x.amount)])
  }

  /** One line passes the checks, and the rows it leaves agree with what was paid. */
  lemma OneLineMore(w: P.Writer, p: Id, pay: Payment, invoices: map<Id, Invoice>, x: Target)
    requires Agrees(w, p, pay, invoices) && P.OfInvoice(x.invoice) in w.held && x.amount > 0
    requires pay.status == Received && pay.drawn + x.amount <= pay.amount
    requires x.invoice in invoices && invoices[x.invoice].status != InvoiceVoid
    requires invoices[x.invoice].customer == pay.customer
    requires invoices[x.invoice].settled + x.amount <= invoices[x.invoice].total
    ensures var next := WithLine(w, p, pay, invoices[x.invoice], x);
            && (forall s :: P.WriterNext(s, w, P.AddAllocation(p, x.invoice, x.amount)) == Some(next))
            && Agrees(next, p, pay.(drawn := pay.drawn + x.amount),
                      invoices[x.invoice := SettleOne(invoices[x.invoice], x.amount)])
            && next == w.(held := next.held, rows := w.rows + [Allocation(p, x.invoice, x.amount)])
            && next.held.Keys == w.held.Keys
  {
    hide SettleOne;
  }

  /** `v` is `w` with all lines allocated. */
  ghost predicate WithLines(w: P.Writer, v: P.Writer, p: Id, pay: Payment, invoices: map<Id, Invoice>,
                            targets: seq<Target>)
    requires forall x :: x in targets ==> x.invoice in invoices
  {
    && v == w.(held := v.held, rows := w.rows + NewRows(p, targets)) && v.held.Keys == w.held.Keys
    && Agrees(v, p, pay.(drawn := pay.drawn + Requested(targets)), Settle(invoices, targets))
  }

  lemma NoLines(w: P.Writer, p: Id, pay: Payment, invoices: map<Id, Invoice>)
    requires Agrees(w, p, pay, invoices)
    ensures WithLines(w, w, p, pay, invoices, [])
  {
    assert w.rows + [] == w.rows;
  }

  lemma FirstLine(w: P.Writer, next: P.Writer, v: P.Writer, p: Id, pay: Payment, invoices: map<Id, Invoice>,
                  targets: seq<Target>)
    requires targets != [] && forall x :: x in targets ==> x.invoice in invoices
    requires next == w.(held := next.held,
                        rows := w.rows + [Allocation(p, targets[0].invoice, targets[0].amount)])
    requires next.held.Keys == w.held.Keys
    requires var x := targets[0];
             WithLines(next, v, p, pay.(drawn := pay.drawn + x.amount),
                       invoices[x.invoice := SettleOne(invoices[x.invoice], x.amount)], targets[1..])
    ensures WithLines(w, v, p, pay, invoices, targets)
  {
    hide Agrees, SettleOne;
    assert next.rows + NewRows(p, targets[1..]) == w.rows + NewRows(p, targets);
  }

  /** Adds one allocation per line, in order. */
  lemma {:induction false} AddsAll(s: P.State, w: P.Writer, p: Id, pay: Payment, invoices: map<Id, Invoice>,
                                   targets: seq<Target>)
    requires Reaches(P.Next, s, At(s, w)) && Agrees(w, p, pay, invoices) && Coverable(pay, invoices, targets)
    requires forall x :: x in targets ==> x.invoice in invoices && P.OfInvoice(x.invoice) in w.held
    ensures exists v :: Reaches(P.Next, s, At(s, v)) && WithLines(w, v, p, pay, invoices, targets)
    decreases |targets|
  {
    hide Reaches, SettleOne, Agrees, Coverable, P.WriterNext, WithLine, WithLines;
    if targets == [] {
      NoLines(w, p, pay, invoices);
    } else {
      var x, rest := targets[0], targets[1..];
      OneLineLess(pay, invoices, targets);
      OneLineMore(w, p, pay, invoices, x);
      var next := WithLine(w, p, pay, invoices[x.invoice], x);
      Goes(s, w, P.AddAllocation(p, x.invoice, x.amount), next);
      var drawn := pay.(drawn := pay.drawn + x.amount);
      var settled := invoices[x.invoice := SettleOne(invoices[x.invoice], x.amount)];
      AddsAll(s, next, p, drawn, settled, rest);
      var v :| Reaches(P.Next, s, At(s, v)) && WithLines(next, v, p, drawn, settled, rest);
      FirstLine(w, next, v, p, pay, invoices, targets);
    }
  }

  lemma AdmissibleIsCoverable(ar: Ar, p: Id, targets: seq<Target>)
    requires Admissible(ar, p, targets)
    ensures Coverable(ar.payments[p], ar.invoices, targets)
  {
    hide TargetIds;
    CountedMeansDistinct(targets);
  }

  /** The rows held at the end, over the committed ones, are the rows of the subledger. */
  lemma HeldIsWritten(base: Ar, filed: Ar, w: P.Writer, p: Id, request: string, targets: seq<Target>)
    requires Admissible(filed, p, targets) && InvoicesOk(filed)
    requires filed == base.(payments := base.payments[p := filed.payments[p]])
    requires Agrees(w, p, filed.payments[p].(drawn := filed.payments[p].drawn + Requested(targets)),
                    Settle(filed.invoices, targets))
    requires forall x :: x in targets ==> P.OfInvoice(x.invoice) in w.held
    ensures BalancesOf(base) + w.held ==
              BalancesOf(Record(filed, p, request, FingerprintText(targets), targets))
  {
    hide FingerprintText, Requested, Settle, InvoicesOk, TargetIds, Agrees, RowIn;
    var after := Record(filed, p, request, FingerprintText(targets), targets);
    SameInvoices(filed, p, targets);
    assert AccountsIn(after) == AccountsIn(base) + {P.OfPayment(p)};
    forall a | a in AccountsIn(after)
      ensures a in w.held || a in AccountsIn(base)
      ensures RowIn(after, a) == if a in w.held then w.held[a] else RowIn(base, a)
    {
      RowIsWritten(base, filed, w, p, request, targets, a);
    }
    forall a | a in w.held ensures a in AccountsIn(after) {
      HeldIsListed(filed, w, p, targets, a);
    }
  }

  lemma HeldIsListed(filed: Ar, w: P.Writer, p: Id, targets: seq<Target>, a: P.Account)
    requires Admissible(filed, p, targets) && InvoicesOk(filed) && a in w.held
    requires Agrees(w, p, filed.payments[p].(drawn := filed.payments[p].drawn + Requested(targets)),
                    Settle(filed.invoices, targets))
    ensures a in AccountsIn(filed)
  {
    hide Requested, Settle, InvoicesOk, TargetIds;
    SameInvoices(filed, p, targets);
  }

  lemma RowIsWritten(base: Ar, filed: Ar, w: P.Writer, p: Id, request: string, targets: seq<Target>, a: P.Account)
    requires Admissible(filed, p, targets) && InvoicesOk(filed)
    requires filed == base.(payments := base.payments[p := filed.payments[p]])
    requires Agrees(w, p, filed.payments[p].(drawn := filed.payments[p].drawn + Requested(targets)),
                    Settle(filed.invoices, targets))
    requires forall x :: x in targets ==> P.OfInvoice(x.invoice) in w.held
    requires a in AccountsIn(Record(filed, p, request, FingerprintText(targets), targets))
    ensures a in w.held || a in AccountsIn(base)
    ensures var after := Record(filed, p, request, FingerprintText(targets), targets);
            RowIn(after, a) == if a in w.held then w.held[a] else RowIn(base, a)
  {
    hide FingerprintText, Requested, Settle, InvoicesOk, TargetIds;
    SameInvoices(filed, p, targets);
    if a !in w.held && a.OfInvoice? { NotAskedFor(filed, p, targets, a.invoice); }
  }

  lemma NotAskedFor(ar: Ar, p: Id, targets: seq<Target>, i: Id)
    requires Admissible(ar, p, targets) && i in ar.invoices
    requires forall x :: x in targets ==> x.invoice != i
    ensures Settle(ar.invoices, targets).Keys == ar.invoices.Keys
    ensures Settle(ar.invoices, targets)[i] == ar.invoices[i]
  {
    SettleAt(ar.invoices, targets, i);
    UntargetedIsZero(targets, i);
  }

  /** From a payment locked or inserted to the committed command. */
  lemma Settles(s: P.State, w: P.Writer, base: Ar, filed: Ar, p: Id, request: string, targets: seq<Target>)
    requires s.writers == map[] && s.rebuilders == map[] && Reaches(P.Next, s, At(s, w))
    requires s.balances == BalancesOf(base) && s.rows == base.allocations
    requires Admissible(filed, p, targets) && InvoicesOk(filed)
    requires filed == base.(payments := base.payments[p := filed.payments[p]])
    requires w.held == map[P.OfPayment(p) := P.PaymentBalance(filed.payments[p])] && w.rows == []
    ensures Reproduces(s, Record(filed, p, request, FingerprintText(targets), targets), s.control + w.posted + w.due)
  {
    hide Reaches, BalancesOf, Reproduces, FingerprintText, Settle, Coverable, InvoicesOk, NewRows, Requested, TargetIds,
        Agrees, HoldsTargets;
    var pay := filed.payments[p];
    AdmissibleIsCoverable(filed, p, targets);
    CountedMeansDistinct(targets);
    StartsAgreed(w, p, pay, filed.invoices);
    LocksInvoices(s, w, p, pay, base, targets, |targets|);
    var v: P.Writer :|
      && Reaches(P.Next, s, At(s, v)) && Agrees(v, p, pay, filed.invoices) && v == w.(held := v.held)
      && HoldsTargets(v, targets, |targets|);
    AllHeld(v, targets);
    AddsAll(s, v, p, pay, filed.invoices, targets);
    var z :| Reaches(P.Next, s, At(s, z)) && WithLines(v, z, p, pay, filed.invoices, targets);
    HeldIsWritten(base, filed, z, p, request, targets);
    assert [] + NewRows(p, targets) == NewRows(p, targets);
    Commits(s, z, Record(filed, p, request, FingerprintText(targets), targets));
  }

  lemma StartsAgreed(w: P.Writer, p: Id, pay: Payment, invoices: map<Id, Invoice>)
    requires w.held == map[P.OfPayment(p) := P.PaymentBalance(pay)]
    ensures Agrees(w, p, pay, invoices)
  {
  }

  lemma AllHeld(w: P.Writer, targets: seq<Target>)
    requires HoldsTargets(w, targets, |targets|)
    ensures forall x :: x in targets ==> P.OfInvoice(x.invoice) in w.held
  {
  }

  lemma AllocationRuns(s: P.State, ar: Ar, control: int, p: Id, request: string, targets: seq<Target>)
    requires Mirrors(ar, control, s) && InvoicesOk(ar) && Admissible(ar, p, targets)
    ensures Reproduces(s, Record(ar, p, request, FingerprintText(targets), targets), control)
  {
    hide Reaches, Reproduces, InvoicesOk, FingerprintText, TargetIds;
    var a := P.OfPayment(p);
    var w := NEWCOMER.(held := map[][a := P.PaymentBalance(ar.payments[p])]);
    Begins(s);
    Goes(s, NEWCOMER, P.LockRow(a), w);
    assert ar.payments[p := ar.payments[p]] == ar.payments;
    Settles(s, w, ar, ar, p, request, targets);
  }

  lemma InlineReceiptRuns(s: P.State, ar: Ar, control: int, id: Id, row: Payment, request: string,
                          targets: seq<Target>)
    requires Mirrors(ar, control, s) && InvoicesOk(ar) && id !in ar.payments
    requires row.amount > 0 && row.drawn == 0 && row.status == Received
    requires Admissible(ar.(payments := ar.payments[id := row]), id, targets)
    ensures var filed := ar.(payments := ar.payments[id := row]);
            Reproduces(s, Record(filed, id, request, FingerprintText(targets), targets), control - row.amount)
  {
    hide Reaches, Reproduces, FingerprintText, Admissible;
    var a, x := P.OfPayment(id), P.PaymentBalance(row);
    var filed := ar.(payments := ar.payments[id := row]);
    Inserts(s, a, x);
    SoundWithPayment(ar, filed);
    Settles(s, P.Writer(map[][a := x], [], -row.amount, 0), ar, filed, id, request, targets);
  }

  // ---------------------------------------------------------------------------
  // A rebuild alone
  // ---------------------------------------------------------------------------

  function Rebuilding(s: P.State, r: P.Rebuilder): P.State { s.(rebuilders := map[TX := r]) }

  lemma GoesOn(s: P.State, r: P.Rebuilder, a: P.RebuildAction, next: P.Rebuilder)
    requires Reaches(P.Next, s, Rebuilding(s, r)) && P.RebuilderNext(Rebuilding(s, r), r, a) == Some(next)
    ensures Reaches(P.Next, s, Rebuilding(s, next))
  {
    hide P.RebuilderNext, Reaches;
    Then(P.Next, s, Rebuilding(s, r), P.Rework(TX, a));
    assert P.Next(Rebuilding(s, r), P.Rework(TX, a)) == Rebuilding(s, next);
  }

  function Restricted(balances: map<P.Account, P.Row>, accounts: set<P.Account>): map<P.Account, P.Row> {
    map a | a in balances && a in accounts :: balances[a]
  }

  /** With all rows of `scope` to be locked, the rest of them, one after the other. */
  lemma {:induction false} LocksRest(s: P.State, r: P.Rebuilder, left: set<P.Account>)
    requires s.writers == map[] && s.rebuilders == map[] && Reaches(P.Next, s, Rebuilding(s, r))
    requires r.scope <= s.balances.Keys && left <= r.scope && r.held == Restricted(s.balances, r.scope - left)
    ensures Reaches(P.Next, s, Rebuilding(s, r.(held := Restricted(s.balances, r.scope))))
    decreases |left|
  {
    hide Reaches, P.RebuilderNext, Restricted;
    if left == {} {
      assert r.scope - left == r.scope;
      assert r.(held := r.held) == r;
    } else {
      var a :| a in left;
      OneRowLocked(s, r, left, a);
      var next := r.(held := Restricted(s.balances, r.scope - (left - {a})));
      GoesOn(s, r, P.LockNext(a), next);
      LocksRest(s, next, left - {a});
    }
  }

  lemma OneRowLocked(s: P.State, r: P.Rebuilder, left: set<P.Account>, a: P.Account)
    requires s.writers == map[] && r.scope <= s.balances.Keys && left <= r.scope && a in left
    requires r.held == Restricted(s.balances, r.scope - left)
    ensures P.RebuilderNext(Rebuilding(s, r), r, P.LockNext(a)) ==
              Some(r.(held := Restricted(s.balances, r.scope - (left - {a}))))
  {
    assert r.held[a := s.balances[a]] == Restricted(s.balances, r.scope - (left - {a}));
  }

  lemma LocksScanned(s: P.State, r: P.Rebuilder, before: set<P.Account>)
    requires s.writers == map[] && s.rebuilders == map[] && Reaches(P.Next, s, Rebuilding(s, r))
    requires before <= r.scope <= s.balances.Keys && r.held == Restricted(s.balances, before)
    ensures Reaches(P.Next, s, Rebuilding(s, r.(held := Restricted(s.balances, r.scope))))
  {
    hide Reaches, Restricted;
    assert r.scope - (r.scope - before) == before;
    LocksRest(s, r, r.scope - before);
  }

  function Totals(s: P.State): map<P.Account, int> {
    map a | a in s.balances :: P.SumFor(s.rows, a)
  }

  /** Both scans, every row locked, and the sums of the committed allocation rows. */
  lemma LocksAll(s: P.State)
    requires s.writers == map[] && s.rebuilders == map[]
    ensures Reaches(P.Next, s, Rebuilding(s, P.Rebuilder(true, true, s.balances.Keys, s.balances, Some(Totals(s)), {})))
  {
    hide Reaches, Restricted, P.SumFor, Totals;
    var none := P.Rebuilder(false, false, {}, map[], None, {});
    var payments, all := P.Scan(s, true), s.balances.Keys;
    Stays(P.Next, s);
    Then(P.Next, s, s, P.BeginRebuild(TX));
    assert P.Next(s, P.BeginRebuild(TX)) == Rebuilding(s, none);
    ScansSee(s);
    RestrictedToNone(s.balances);
    var scanned := none.(payments := true, scope := payments);
    assert {} + payments == payments;
    GoesOn(s, none, P.ScanPayments, scanned);
    LocksScanned(s, scanned, {});
    var half := scanned.(held := Restricted(s.balances, payments));
    RestrictedKeys(s.balances, payments);
    var both := half.(invoices := true, scope := all);
    GoesOn(s, half, P.ScanInvoices, both);
    LocksScanned(s, both, payments);
    RestrictedToAll(s.balances);
    var locked := both.(held := s.balances);
    SumsAreRead(s, locked);
    GoesOn(s, locked, P.SumRows, locked.(totals := Some(Totals(s))));
  }

  lemma ScansSee(s: P.State)
    ensures forall r :: P.Scan(Rebuilding(s, r), true) == P.Scan(s, true)
    ensures forall r :: P.Scan(Rebuilding(s, r), false) == P.Scan(s, false)
    ensures P.Scan(s, true) + P.Scan(s, false) == s.balances.Keys
  {
  }

  lemma RestrictedToNone(balances: map<P.Account, P.Row>)
    ensures Restricted(balances, {}) == map[]
  {
  }

  lemma RestrictedKeys(balances: map<P.Account, P.Row>, accounts: set<P.Account>)
    requires accounts <= balances.Keys
    ensures Restricted(balances, accounts).Keys == accounts
  {
  }

  lemma RestrictedToAll(balances: map<P.Account, P.Row>)
    ensures Restricted(balances, balances.Keys) == balances
  {
  }

  lemma SumsAreRead(s: P.State, r: P.Rebuilder)
    requires r.payments && r.invoices && r.scope == s.balances.Keys && r.held == s.balances && r.totals == None
    ensures P.RebuilderNext(Rebuilding(s, r), r, P.SumRows) == Some(r.(totals := Some(Totals(s))))
  {
    hide P.SumFor;
    assert (map a | a in r.scope :: P.SumFor(s.rows, a)) == Totals(s);
  }

  /** The rows with those of `done` rebuilt. */
  function Remade(s: P.State, done: set<P.Account>): map<P.Account, P.Row> {
    map a | a in s.balances :: if a in done then P.Rebuilt(s.balances[a], P.SumFor(s.rows, a)) else s.balances[a]
  }

  function Overwritten(s: P.State, done: set<P.Account>): P.Rebuilder {
    P.Rebuilder(true, true, s.balances.Keys, Remade(s, done), Some(Totals(s)), done)
  }

  lemma {:induction false} OverwritesRows(s: P.State, done: set<P.Account>)
    requires s.writers == map[] && s.rebuilders == map[] && done <= s.balances.Keys
    ensures Reaches(P.Next, s, Rebuilding(s, Overwritten(s, done)))
    decreases |done|
  {
    hide Reaches, P.RebuilderNext, Remade, Totals;
    if done == {} {
      LocksAll(s);
      NothingRemade(s);
    } else {
      var a :| a in done;
      OverwritesRows(s, done - {a});
      OneRowRemade(s, done, a);
      GoesOn(s, Overwritten(s, done - {a}), P.Overwrite(a), Overwritten(s, done));
    }
  }

  lemma NothingRemade(s: P.State)
    ensures Remade(s, {}) == s.balances
  {
  }

  lemma OneRowRemade(s: P.State, done: set<P.Account>, a: P.Account)
    requires a in done && done <= s.balances.Keys
    ensures var r := Overwritten(s, done - {a});
            P.RebuilderNext(Rebuilding(s, r), r, P.Overwrite(a)) == Some(Overwritten(s, done))
  {
    hide P.SumFor, P.Rebuilt;
    var r := Overwritten(s, done - {a});
    assert r.written + {a} == done;
    assert r.held[a := P.Rebuilt(r.held[a], Totals(s)[a])] == Remade(s, done);
  }

  /** From any drift, a rebuild runs to what the sequential rebuild prescribes. */
  lemma RebuildRuns(s: P.State, ar: Ar, control: int)
    requires Mirrors(ar, control, s) && RebuildAr(ar).Done?
    ensures Reproduces(s, RebuildAr(ar).value, control)
  {
    hide Reaches, BalancesOf, Remade, RebuildAr, P.PassesChecks, Totals;
    var all := s.balances.Keys;
    OverwritesRows(s, all);
    var r := Overwritten(s, all);
    RemadeIsRebuilt(s, ar, control);
    Then(P.Next, s, Rebuilding(s, r), P.CommitRebuild(TX));
    var u := P.Next(Rebuilding(s, r), P.CommitRebuild(TX));
    assert Rebuilding(s, r).rebuilders - {TX} == map[];
    assert Mirrors(RebuildAr(ar).value, control, u);
  }

  lemma RemadeIsRebuilt(s: P.State, ar: Ar, control: int)
    requires Mirrors(ar, control, s) && RebuildAr(ar).Done?
    ensures Remade(s, s.balances.Keys).Keys == s.balances.Keys
    ensures s.balances + Remade(s, s.balances.Keys) == BalancesOf(RebuildAr(ar).value)
    ensures forall a :: a in Remade(s, s.balances.Keys) ==> P.PassesChecks(Remade(s, s.balances.Keys)[a])
    ensures RebuildAr(ar).value.allocations == ar.allocations
  {
    hide SettledBy, DrawnFrom, RowIn, P.Rebuilt, P.SumFor, P.PassesChecks, RebuildAr;
    SameAccounts(ar);
    forall a | a in AccountsIn(ar)
      ensures P.Rebuilt(RowIn(ar, a), P.SumFor(ar.allocations, a)) == RowIn(RebuildAr(ar).value, a)
      ensures P.PassesChecks(RowIn(RebuildAr(ar).value, a))
    {
      RowIsRebuilt(ar, a);
    }
  }

  lemma SameAccounts(ar: Ar)
    requires RebuildAr(ar).Done?
    ensures AccountsIn(RebuildAr(ar).value) == AccountsIn(ar) && RebuildAr(ar).value.allocations == ar.allocations
  {
    hide SettledBy, DrawnFrom;
  }

  lemma RowIsRebuilt(ar: Ar, a: P.Account)
    requires RebuildAr(ar).Done? && a in AccountsIn(ar)
    ensures a in AccountsIn(RebuildAr(ar).value)
    ensures P.Rebuilt(RowIn(ar, a), P.SumFor(ar.allocations, a)) == RowIn(RebuildAr(ar).value, a)
    ensures P.PassesChecks(RowIn(RebuildAr(ar).value, a))
  {
    hide SettledBy, DrawnFrom;
    match a
    case OfPayment(p) =>
    case OfInvoice(i) =>
  }

  // ---------------------------------------------------------------------------
  // Every service call
  // ---------------------------------------------------------------------------

  ghost function Control(t: Tables): int { Balance(t.books.entries, RECEIVABLE) }

  lemma InvoiceRuns(t: Tables, s: P.State, op: Op)
    requires Reached(t) && Mirrors(t.ar, Control(t), s)
    requires (op.IssueOp? || op.VoidInvoiceOp?) && Perform(t, op).Done?
    ensures Reproduces(s, Perform(t, op).value.ar, Control(Perform(t, op).value))
  {
    hide Reaches, Reached, Reproduces, Mirrors, Issue, Void, BooksCarry, HasLiveInvoice, Balance, Net;
    var after := Perform(t, op).value;
    match op {
      case IssueOp(id, order, date, due, customers) =>
        IssuesIffPossible(t, id, order, date, due, customers);
        IssueWrites(t, id, order, date, due, customers);
        IssuingRuns(s, t.ar, Control(t), id, after.ar.invoices[id]);
      case VoidInvoiceOp(id, today) =>
        VoidsIffPossible(t, id, today);
        VoidWrites(t, id, today);
        BalancesMatchRows(t, id, 0);
        VoidingRuns(s, t.ar, Control(t), id);
    }
  }

  lemma VoidedReceiptRuns(t: Tables, s: P.State, id: Id, today: Date)
    requires Reached(t) && Mirrors(t.ar, Control(t), s) && Perform(t, VoidPaymentOp(id, today)).Done?
    ensures var after := Perform(t, VoidPaymentOp(id, today)).value; Reproduces(s, after.ar, Control(after))
  {
    hide Reaches, Reached, Reproduces, Mirrors, VoidReceipt, BooksCarry, Balance, Net;
    ReceiptVoidsIffPossible(t, id, today);
    VoidReceiptWrites(t, id, today);
    VoidReceiptRuns(s, t.ar, Control(t), id);
  }

  lemma PaymentRuns(t: Tables, s: P.State, op: Op)
    requires Reached(t) && Mirrors(t.ar, Control(t), s) && op.ReceiveOp? && Perform(t, op).Done?
    ensures Reproduces(s, Perform(t, op).value.ar, Control(Perform(t, op).value))
  {
    hide Reaches, Reached, Reproduces, Mirrors, Publish, Allocate, BooksCarry, Balance, Net, WellFormed, Payable,
        InvoicesOk, Written, Record, Admissible, FingerprintText;
    var row := Payment(op.customer, op.reference, op.amount, 0, Received);
    var filed := t.ar.(payments := t.ar.payments[op.id := row]);
    ReceivesIff(t, op.id, op.customer, op.customers, op.reference, op.amount, op.at, op.targets);
    ReceiveWrites(t, op.id, op.customer, op.customers, op.reference, op.amount, op.at, op.targets);
    if op.targets == [] {
      ReceiptRuns(s, t.ar, Control(t), op.id, row);
    } else {
      RowsAreSound(t);
      AdmissibleIff(filed, op.id, op.targets);
      AllocateCases(filed, op.id, op.reference, op.targets);
      InlineReceiptRuns(s, t.ar, Control(t), op.id, row, op.reference, op.targets);
      InlineIsRecorded(t, op);
    }
  }

  lemma InlineIsRecorded(t: Tables, op: Op)
    requires Reached(t) && op.ReceiveOp? && op.targets != [] && Perform(t, op).Done?
    ensures var filed := t.ar.(payments := t.ar.payments[op.id := Payment(op.customer, op.reference, op.amount, 0,
                                                                         Received)]);
            && Admissible(filed, op.id, op.targets)
            && Perform(t, op).value.ar ==
               Record(filed, op.id, op.reference, FingerprintText(op.targets), op.targets)
  {
    hide Reached, Dispatch, Allocate, Record, Admissible, FingerprintText, ReferenceUsed;
    RowsAreSound(t);
    var ar := AddPayment(t.ar, op.id, op.customer, op.reference, op.amount).value;
    var e := Event(PaymentReceived, op.id, op.at, [], MICRO * op.amount);
    DispatchFrame(t.(ar := ar, outbox := t.outbox + [e]), e);
    AllocateCases(ar, op.id, op.reference, op.targets);
  }

  lemma CommandRuns(t: Tables, s: P.State, p: Id, request: string, targets: seq<Target>)
    requires Reached(t) && Mirrors(t.ar, Control(t), s) && Perform(t, AllocateOp(p, request, targets)).Done?
    ensures var after := Perform(t, AllocateOp(p, request, targets)).value; Reproduces(s, after.ar, Control(after))
  {
    hide Reaches, Reached, Reproduces, Mirrors, Allocate, Record, Admissible, FingerprintText, InvoicesOk;
    RowsAreSound(t);
    AllocateCases(t.ar, p, request, targets);
    if CommandKey(p, request) in t.ar.commands {
      NothingRuns(s, t.ar, Control(t));
    } else {
      AllocationRuns(s, t.ar, Control(t), p, request, targets);
    }
  }

  /** Services that leave the subledger and the control account alone. */
  lemma OtherServicesAreQuiet(t: Tables, op: Op)
    requires Reached(t) && !op.IssueOp? && !op.VoidInvoiceOp? && !op.VoidPaymentOp? && !op.ReceiveOp? && !op.AllocateOp?
    ensures Apply(t, op).ar == t.ar && Control(Apply(t, op)) == Control(t)
  {
    hide Reached, Perform;
    SubledgerIsQuiet(t, op);
    ReceivablesTieOut(t, 0);
    ReachedStep(t, op);
    ReceivablesTieOut(Apply(t, op), 0);
  }

  lemma SubledgerIsQuiet(t: Tables, op: Op)
    requires Reached(t) && !op.IssueOp? && !op.VoidInvoiceOp? && !op.VoidPaymentOp? && !op.ReceiveOp? && !op.AllocateOp?
    ensures Apply(t, op).ar == t.ar
  {
    hide Reached, Dispatch, Create, Update, Cancel, ApplyMove, Rebuild, RebuildAr, Post, Reverse, Exposure,
        MarkConfirmed, Payload, CostTotal, ExactTotal;
    if Perform(t, op).Done? {
      match op {
        case ConfirmOp(id, catalog, customers, grace, at) =>
          var e := Event(OrderConfirmed, id, at, [], PriceForConfirm(t.orders, id, customers.Keys, catalog).value);
          DispatchFrame(t.(orders := MarkConfirmed(t.orders, id, catalog), outbox := t.outbox + [e]), e);
        case ShipOp(id, catalog, at) =>
          var e := ShipmentEvent(t.orders, id, catalog, at).value;
          DispatchFrame(t.(outbox := t.outbox + [e]), e);
        case RebuildStockOp => RebuildsAreIdentity(t);
        case RebuildArOp => RebuildsAreIdentity(t);
        case RedeliverOp(row) => RedeliveryIsHarmless(t, row);
        case _ =>
      }
    }
  }

  lemma ServiceIsReproduced(t: Tables, s: P.State, op: Op)
    requires Reached(t) && Mirrors(t.ar, Balance(t.books.entries, 1100), s)
    ensures Reproduces(s, Apply(t, op).ar, Control(Apply(t, op)))
  {
    hide Reaches, Reproduces, Reached, Mirrors, Perform, Balance;
    if Perform(t, op).Failed? {
      NothingRuns(s, t.ar, Control(t));
    } else {
      match op {
        case IssueOp(_, _, _, _, _) => InvoiceRuns(t, s, op);
        case VoidInvoiceOp(_, _) => InvoiceRuns(t, s, op);
        case VoidPaymentOp(id, today) => VoidedReceiptRuns(t, s, id, today);
        case ReceiveOp(_, _, _, _, _, _, _) => PaymentRuns(t, s, op);
        case AllocateOp(p, request, targets) => CommandRuns(t, s, p, request, targets);
        case _ =>
          OtherServicesAreQuiet(t, op);
          NothingRuns(s, t.ar, Control(t));
      }
    }
  }

  lemma {:induction false} FoldIsRun(s: P.State, actions: seq<P.Action>)
    ensures Fold(P.Next, s, actions) == P.Run(s, actions)
    decreases |actions|
  {
    if actions != [] { FoldIsRun(P.Next(s, actions[0]), actions[1..]); }
  }

  /** Whatever a service call does to the subledger and to account 1100, some schedule of
      the protocol does too. */
  lemma EveryServiceRuns(t: Tables, s: P.State, op: Op)
    requires Reached(t) && Mirrors(t.ar, Balance(t.books.entries, 1100), s)
    ensures exists actions :: Mirrors(Apply(t, op).ar, Balance(Apply(t, op).books.entries, 1100), P.Run(s, actions))
  {
    hide Reached, Mirrors, Apply, Balance;
    ServiceIsReproduced(t, s, op);
    var u :| Reaches(P.Next, s, u) && Mirrors(Apply(t, op).ar, Balance(Apply(t, op).books.entries, 1100), u);
    var actions: seq<P.Action> :| Fold(P.Next, s, actions) == u;
    FoldIsRun(s, actions);
  }
}
