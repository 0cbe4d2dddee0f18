/** Receivables of one company: invoices, payments, allocation commands and the
    append-only allocation rows, with the rebuild of the maintained balances. */
module Receivables {
  import opened Common
  import opened Sums
  import opened Fingerprint

  datatype InvoiceStatus = Unsettled | Partial | Paid | InvoiceVoid
  datatype PaymentStatus = Received | PaymentVoid

  datatype Invoice = Invoice(order: Id, customer: Id, due: int, total: int, settled: int, status: InvoiceStatus)
  datatype Payment = Payment(customer: Id, reference: string, amount: int, drawn: int, status: PaymentStatus)
  datatype Allocation = Allocation(payment: Id, invoice: Id, amount: int)
  datatype CommandKey = CommandKey(payment: Id, request: string)

  datatype Ar = Ar(invoices: map<Id, Invoice>, payments: map<Id, Payment>,
                   commands: map<CommandKey, string>, allocations: seq<Allocation>)

  // ---------------------------------------------------------------------------
  // Allocation
  // ---------------------------------------------------------------------------

  function DerivedStatus(total: int, settled: int): InvoiceStatus {
    if settled >= total then Paid else if settled > 0 then Partial else Unsettled
  }

  function Requested(targets: seq<Target>): int {
    if targets == [] then 0 else targets[0].amount + Requested(targets[1..])
  }

  function TargetIds(targets: seq<Target>): set<Id> {
    set t | t in targets :: t.invoice
  }

  /** What request parsing already refuses: no lines, or an amount that is not positive. */
  predicate Parsed(targets: seq<Target>) {
    targets != [] && forall t :: t in targets ==> t.amount > 0
  }

  predicate Eligible(ar: Ar, customer: Id, targets: seq<Target>) {
    forall t :: t in targets ==>
      t.invoice in ar.invoices && ar.invoices[t.invoice].status != InvoiceVoid
      && ar.invoices[t.invoice].customer == customer
  }

  predicate WithinInvoices(ar: Ar, targets: seq<Target>) {
    forall t :: t in targets ==>
      t.invoice in ar.invoices && ar.invoices[t.invoice].settled + t.amount <= ar.invoices[t.invoice].total
  }

  function SettleOne(inv: Invoice, amount: int): Invoice {
    var settled := inv.settled + amount;
    inv.(settled := settled,
         status := if settled >= inv.total then Paid else if settled > 0 then Partial else inv.status)
  }

  function Settle(invoices: map<Id, Invoice>, targets: seq<Target>): map<Id, Invoice>
    requires forall t :: t in targets ==> t.invoice in invoices
  {
    if targets == [] then invoices else
    var t := targets[0];
    Settle(invoices[t.invoice := SettleOne(invoices[t.invoice], t.amount)], targets[1..])
  }

  function NewRows(payment: Id, targets: seq<Target>): seq<Allocation> {
    if targets == [] then [] else
    [Allocation(payment, targets[0].invoice, targets[0].amount)] + NewRows(payment, targets[1..])
  }

  /** The writes of an accepted command whose fingerprint is `text`. */
  function Record(ar: Ar, p: Id, request: string, text: string, targets: seq<Target>): Ar
    requires p in ar.payments && forall t :: t in targets ==> t.invoice in ar.invoices
  {
    Ar(Settle(ar.invoices, targets),
       ar.payments[p := ar.payments[p].(drawn := ar.payments[p].drawn + Requested(targets))],
       ar.commands[CommandKey(p, request) := text],
       ar.allocations + NewRows(p, targets))
  }

  /** What one allocation command amounts to. */
  function Allocate(ar: Ar, p: Id, request: string, targets: seq<Target>): Outcome<Ar> {
    var key := CommandKey(p, request);
    if !Parsed(targets) || |TargetIds(targets)| != |targets| then Failed(Rejected)
    else if p !in ar.payments then Failed(NotFound)
    else if ar.payments[p].status == PaymentVoid then Failed(Conflict)
    else if key in ar.commands then
      if ar.commands[key] == FingerprintText(targets) then Done(ar) else Failed(Conflict)
    else if !Eligible(ar, ar.payments[p].customer, targets) then Failed(Rejected)
    else if ar.payments[p].drawn + Requested(targets) > ar.payments[p].amount then Failed(Conflict)
    else if !WithinInvoices(ar, targets) then Failed(Conflict)
    else Done(Record(ar, p, request, FingerprintText(targets), targets))
  }

  /** The guard under which a new command is written. */
  predicate Admissible(ar: Ar, p: Id, targets: seq<Target>) {
    && Parsed(targets) && |TargetIds(targets)| == |targets|
    && p in ar.payments && ar.payments[p].status != PaymentVoid
    && Eligible(ar, ar.payments[p].customer, targets)
    && ar.payments[p].drawn + Requested(targets) <= ar.payments[p].amount
    && WithinInvoices(ar, targets)
  }

  /** A command either replays, is refused, or is admissible and written. */
  lemma AllocateCases(ar: Ar, p: Id, request: string, targets: seq<Target>)
    ensures var key := CommandKey(p, request);
            if key in ar.commands
            then Allocate(ar, p, request, targets).Done? ==> Allocate(ar, p, request, targets).value == ar
            else
              && (Allocate(ar, p, request, targets).Done? <==> Admissible(ar, p, targets))
              && (Admissible(ar, p, targets) ==>
                    Allocate(ar, p, request, targets).value ==
                    Record(ar, p, request, FingerprintText(targets), targets))
  {
  }

  // ---------------------------------------------------------------------------
  // Issue, receipt and void (the subledger half)
  // ---------------------------------------------------------------------------

  predicate HasLiveInvoice(invoices: map<Id, Invoice>, order: Id) {
    exists i :: i in invoices && invoices[i].order == order && invoices[i].status != InvoiceVoid
  }

  /** Inserting an invoice: the CHECK on its total, and one live invoice per order. */
  function AddInvoice(ar: Ar, id: Id, order: Id, customer: Id, due: int, total: int): Outcome<Ar> {
    if id in ar.invoices then Failed(CheckViolation)
    else if total <= 0 then Failed(CheckViolation)
    else if HasLiveInvoice(ar.invoices, order) then Failed(Conflict)
    else Done(ar.(invoices := ar.invoices[id := Invoice(order, customer, due, total, 0, Unsettled)]))
  }

  function VoidInvoice(ar: Ar, id: Id): Outcome<Ar> {
    if id !in ar.invoices then Failed(NotFound)
    else if ar.invoices[id].status == InvoiceVoid || ar.invoices[id].settled != 0 then Failed(Conflict)
    else Done(ar.(invoices := ar.invoices[id := ar.invoices[id].(status := InvoiceVoid)]))
  }

  predicate ReferenceUsed(payments: map<Id, Payment>, reference: string) {
    exists p :: p in payments && payments[p].reference == reference
  }

  function AddPayment(ar: Ar, id: Id, customer: Id, reference: string, amount: int): Outcome<Ar> {
    if amount <= 0 then Failed(Rejected)
    else if id in ar.payments then Failed(CheckViolation)
    else if ReferenceUsed(ar.payments, reference) then Failed(Conflict)
    else Done(ar.(payments := ar.payments[id := Payment(customer, reference, amount, 0, Received)]))
  }

  function VoidPayment(ar: Ar, id: Id): Outcome<Ar> {
    if id !in ar.payments then Failed(NotFound)
    else if ar.payments[id].status == PaymentVoid || ar.payments[id].drawn != 0 then Failed(Conflict)
    else Done(ar.(payments := ar.payments[id := ar.payments[id].(status := PaymentVoid)]))
  }

  // ---------------------------------------------------------------------------
  // Invariant
  // ---------------------------------------------------------------------------

  /** SUM(amount) of the allocation rows of an invoice, and of a payment. */
  function SettledBy(rows: seq<Allocation>, i: Id): int {
    if rows == [] then 0 else (if rows[0].invoice == i then rows[0].amount else 0) + SettledBy(rows[1..], i)
  }

  function DrawnFrom(rows: seq<Allocation>, p: Id): int {
    if rows == [] then 0 else (if rows[0].payment == p then rows[0].amount else 0) + DrawnFrom(rows[1..], p)
  }

  ghost predicate InvoiceOk(inv: Invoice, settled: int) {
    && inv.settled == settled
    && 0 <= settled <= inv.total && inv.total > 0
    && (inv.status != InvoiceVoid ==> inv.status == DerivedStatus(inv.total, settled))
    && (inv.status == InvoiceVoid ==> settled == 0)
  }

  ghost predicate PaymentOk(pay: Payment, drawn: int) {
    && pay.drawn == drawn
    && 0 <= drawn <= pay.amount && pay.amount > 0
    && (pay.status == PaymentVoid ==> drawn == 0)
  }

  ghost predicate InvoicesOk(ar: Ar) {
    forall i :: i in ar.invoices ==> InvoiceOk(ar.invoices[i], SettledBy(ar.allocations, i))
  }

  ghost predicate PaymentsOk(ar: Ar) {
    forall p :: p in ar.payments ==> PaymentOk(ar.payments[p], DrawnFrom(ar.allocations, p))
  }

  /** A payment with a recorded command carries allocations. */
  ghost predicate CommandsOk(ar: Ar) {
    forall k :: k in ar.commands ==> k.payment in ar.payments && ar.payments[k.payment].drawn > 0
  }

  ghost predicate RowsOk(ar: Ar) {
    forall r :: r in ar.allocations ==> r.amount > 0 && r.invoice in ar.invoices && r.payment in ar.payments
  }

  ghost predicate ReferencesUnique(payments: map<Id, Payment>) {
    forall p, q :: p in payments && q in payments && p != q ==> payments[p].reference != payments[q].reference
  }

  /** Balances equal the sums of their rows and stay in bounds, and status is exactly
      what the settled amount dictates. */
  ghost predicate ArOk(ar: Ar) {
    && InvoicesOk(ar) && PaymentsOk(ar) && CommandsOk(ar) && RowsOk(ar)
    && OneLiveInvoice(ar.invoices) && ReferencesUnique(ar.payments)
  }

  /** An order has at most one live invoice. */
  ghost predicate OneLiveInvoice(invoices: map<Id, Invoice>) {
    forall i, j ::
      i in invoices && j in invoices && i != j && invoices[i].order == invoices[j].order ==>
        invoices[i].status == InvoiceVoid || invoices[j].status == InvoiceVoid
  }

  /** Open amount of an invoice, unapplied credit of a payment. */
  function OpenOf(inv: Invoice): int {
    if inv.status == InvoiceVoid then 0 else inv.total - inv.settled
  }

  function UnappliedOf(pay: Payment): int {
    if pay.status == PaymentVoid then 0 else pay.amount - pay.drawn
  }

  /** The same amounts, restricted to one customer. */
  ghost function OpenFor(customer: Id): Invoice -> int {
    (inv: Invoice) => if inv.customer == customer then OpenOf(inv) else 0
  }

  ghost function UnappliedFor(customer: Id): Payment -> int {
    (pay: Payment) => if pay.customer == customer then UnappliedOf(pay) else 0
  }

  /** What the subledger says customers owe. */
  ghost function Subledger(ar: Ar): int {
    SumBy(ar.invoices, OpenOf) - SumBy(ar.payments, UnappliedOf)
  }

  // ---------------------------------------------------------------------------
  // Allocation preserves the invariant and the subledger
  // ---------------------------------------------------------------------------

  function AmountFor(targets: seq<Target>, i: Id): int {
    if targets == [] then 0 else (if targets[0].invoice == i then targets[0].amount else 0) + AmountFor(targets[1..], i)
  }

  lemma {:induction false} SettleAt(invoices: map<Id, Invoice>, targets: seq<Target>, i: Id)
    requires forall t :: t in targets ==> t.invoice in invoices && t.amount > 0
    requires i in invoices
    ensures Settle(invoices, targets).Keys == invoices.Keys
    ensures AmountFor(targets, i) >= 0
    ensures Settle(invoices, targets)[i] ==
              if AmountFor(targets, i) == 0 then invoices[i] else SettleOne(invoices[i], AmountFor(targets, i))
    decreases |targets|
  {
    if targets != [] {
      var t := targets[0];
      assert t in targets;
      forall u | u in targets[1..] ensures u in targets {}
      var next := invoices[t.invoice := SettleOne(invoices[t.invoice], t.amount)];
      SettleAt(next, targets[1..], i);
    }
  }

  lemma {:induction false} UntargetedIsZero(targets: seq<Target>, i: Id)
    requires i !in TargetIds(targets)
    ensures AmountFor(targets, i) == 0
    decreases |targets|
  {
    if targets != [] {
      assert targets[0] in targets;
      forall u | u in targets[1..] ensures u in targets {}
      UntargetedIsZero(targets[1..], i);
    }
  }

  lemma {:induction false} IdsAreCounted(targets: seq<Target>)
    ensures |TargetIds(targets)| <= |targets|
    decreases |targets|
  {
    if targets != [] {
      IdsAreCounted(targets[1..]);
      assert targets == [targets[0]] + targets[1..];
      assert TargetIds(targets) == {targets[0].invoice} + TargetIds(targets[1..]);
    }
  }

  /** With as many ids as lines no id repeats, so each line is its invoice's only one. */
  lemma {:induction false} DistinctTargets(targets: seq<Target>, t: Target)
    requires |TargetIds(targets)| == |targets| && t in targets
    ensures AmountFor(targets, t.invoice) == t.amount
    decreases |targets|
  {
    var first, rest := targets[0], targets[1..];
    assert targets == [first] + rest;
    assert TargetIds(targets) == {first.invoice} + TargetIds(rest);
    IdsAreCounted(rest);
    assert first.invoice !in TargetIds(rest);
    if t == first {
      UntargetedIsZero(rest, t.invoice);
    } else {
      DistinctTargets(rest, t);
    }
  }

  lemma {:induction false} RowsAppend(rows: seq<Allocation>, more: seq<Allocation>, i: Id, q: Id)
    ensures SettledBy(rows + more, i) == SettledBy(rows, i) + SettledBy(more, i)
    ensures DrawnFrom(rows + more, q) == DrawnFrom(rows, q) + DrawnFrom(more, q)
    decreases |rows|
  {
    if rows == [] {
      assert rows + more == more;
    } else {
      RowsAppend(rows[1..], more, i, q);
      assert (rows + more)[1..] == rows[1..] + more;
    }
  }

  lemma {:induction false} RowsOfTargets(p: Id, targets: seq<Target>, i: Id, q: Id)
    ensures SettledBy(NewRows(p, targets), i) == AmountFor(targets, i)
    ensures DrawnFrom(NewRows(p, targets), q) == if p == q then Requested(targets) else 0
    decreases |targets|
  {
    if targets != [] {
      RowsOfTargets(p, targets[1..], i, q);
      assert NewRows(p, targets)[1..] == NewRows(p, targets[1..]);
    }
  }

  lemma NewRowsSums(rows: seq<Allocation>, p: Id, targets: seq<Target>, i: Id, q: Id)
    ensures SettledBy(rows + NewRows(p, targets), i) == SettledBy(rows, i) + AmountFor(targets, i)
    ensures DrawnFrom(rows + NewRows(p, targets), q) == DrawnFrom(rows, q) + if p == q then Requested(targets) else 0
  {
    hide SettledBy, DrawnFrom, NewRows, AmountFor, Requested;
    RowsAppend(rows, NewRows(p, targets), i, q);
    RowsOfTargets(p, targets, i, q);
  }

  lemma {:induction false} RequestedIsPositive(targets: seq<Target>)
    requires Parsed(targets)
    ensures Requested(targets) > 0
    decreases |targets|
  {
    assert targets[0] in targets;
    if |targets| > 1 {
      forall u | u in targets[1..] ensures u in targets {}
      RequestedIsPositive(targets[1..]);
    }
  }

  lemma {:induction false} NewRowsTarget(p: Id, targets: seq<Target>)
    requires forall t :: t in targets ==> t.amount > 0
    ensures forall r :: r in NewRows(p, targets) ==> r.payment == p && r.invoice in TargetIds(targets) && r.amount > 0
    decreases |targets|
  {
    if targets != [] {
      assert targets[0] in targets;
      forall u | u in targets[1..] ensures u in targets {}
      NewRowsTarget(p, targets[1..]);
    }
  }

  /** Settling moves the open total down by exactly what was requested. */
  lemma {:induction false} SettleMovesOpen(invoices: map<Id, Invoice>, targets: seq<Target>)
    requires forall t :: t in targets ==> t.invoice in invoices && invoices[t.invoice].status != InvoiceVoid
    ensures SumBy(Settle(invoices, targets), OpenOf) == SumBy(invoices, OpenOf) - Requested(targets)
    decreases |targets|
  {
    if targets != [] {
      var t := targets[0];
      assert t in targets;
      forall u | u in targets[1..] ensures u in targets {}
      var next := invoices[t.invoice := SettleOne(invoices[t.invoice], t.amount)];
      SumByUpdate(invoices, OpenOf, t.invoice, next[t.invoice]);
      SettleMovesOpen(next, targets[1..]);
    }
  }

  /** What a written command does to one invoice. */
  lemma RecordedInvoice(ar: Ar, p: Id, request: string, text: string, targets: seq<Target>, i: Id)
    requires InvoicesOk(ar) && Admissible(ar, p, targets) && i in ar.invoices
    ensures var after := Record(ar, p, request, text, targets);
            && after.invoices.Keys == ar.invoices.Keys
            && InvoiceOk(after.invoices[i], SettledBy(after.allocations, i))
            && after.invoices[i].order == ar.invoices[i].order
            && after.invoices[i].customer == ar.invoices[i].customer
            && after.invoices[i].total == ar.invoices[i].total
            && after.invoices[i].settled == ar.invoices[i].settled + AmountFor(targets, i)
            && (after.invoices[i].status == InvoiceVoid <==> ar.invoices[i].status == InvoiceVoid)
  {
    SettleAt(ar.invoices, targets, i);
    NewRowsSums(ar.allocations, p, targets, i, p);
    if i in TargetIds(targets) {
      var t :| t in targets && t.invoice == i;
      DistinctTargets(targets, t);
    } else {
      UntargetedIsZero(targets, i);
    }
  }

  lemma RecordKeepsInvoices(ar: Ar, p: Id, request: string, text: string, targets: seq<Target>)
    requires InvoicesOk(ar) && OneLiveInvoice(ar.invoices) && Admissible(ar, p, targets)
    ensures var after := Record(ar, p, request, text, targets);
            InvoicesOk(after) && OneLiveInvoice(after.invoices) && after.invoices.Keys == ar.invoices.Keys
  {
    var after := Record(ar, p, request, text, targets);
    assert targets[0] in targets;
    RecordedInvoice(ar, p, request, text, targets, targets[0].invoice);
    forall i | i in ar.invoices
      ensures InvoiceOk(after.invoices[i], SettledBy(after.allocations, i))
      ensures after.invoices[i].order == ar.invoices[i].order
      ensures after.invoices[i].status == InvoiceVoid <==> ar.invoices[i].status == InvoiceVoid
    {
      RecordedInvoice(ar, p, request, text, targets, i);
    }
  }

  lemma RecordKeepsPayments(ar: Ar, p: Id, request: string, text: string, targets: seq<Target>)
    requires PaymentsOk(ar) && CommandsOk(ar) && ReferencesUnique(ar.payments) && Admissible(ar, p, targets)
    ensures var after := Record(ar, p, request, text, targets);
            PaymentsOk(after) && CommandsOk(after) && ReferencesUnique(after.payments)
  {
    var after := Record(ar, p, request, text, targets);
    RequestedIsPositive(targets);
    forall q | q in after.payments ensures PaymentOk(after.payments[q], DrawnFrom(after.allocations, q)) {
      NewRowsSums(ar.allocations, p, targets, 0, q);
      assert PaymentOk(ar.payments[q], DrawnFrom(ar.allocations, q));
    }
  }

  lemma RecordKeeps(ar: Ar, p: Id, request: string, text: string, targets: seq<Target>)
    requires ArOk(ar) && Admissible(ar, p, targets)
    ensures ArOk(Record(ar, p, request, text, targets))
  {
    RecordKeepsInvoices(ar, p, request, text, targets);
    RecordKeepsPayments(ar, p, request, text, targets);
    NewRowsTarget(p, targets);
  }

  lemma AllocateKeeps(ar: Ar, p: Id, request: string, targets: seq<Target>)
    requires ArOk(ar) && Allocate(ar, p, request, targets).Done?
    ensures ArOk(Allocate(ar, p, request, targets).value)
  {
    AllocateCases(ar, p, request, targets);
    if CommandKey(p, request) !in ar.commands {
      RecordKeeps(ar, p, request, FingerprintText(targets), targets);
    }
  }

  lemma RecordKeepsSubledger(ar: Ar, p: Id, request: string, text: string, targets: seq<Target>)
    requires Admissible(ar, p, targets)
    ensures Subledger(Record(ar, p, request, text, targets)) == Subledger(ar)
  {
    SettleMovesOpen(ar.invoices, targets);
    SumByUpdate(ar.payments, UnappliedOf, p, ar.payments[p].(drawn := ar.payments[p].drawn + Requested(targets)));
  }

  /** Allocation is subledger bookkeeping: both sides fall by the same amount. */
  lemma AllocateKeepsSubledger(ar: Ar, p: Id, request: string, targets: seq<Target>)
    requires Allocate(ar, p, request, targets).Done?
    ensures Subledger(Allocate(ar, p, request, targets).value) == Subledger(ar)
  {
    AllocateCases(ar, p, request, targets);
    if CommandKey(p, request) !in ar.commands {
      RecordKeepsSubledger(ar, p, request, FingerprintText(targets), targets);
    }
  }

  // ---------------------------------------------------------------------------
  // Issue, receipt and void keep the invariant and move the subledger
  // ---------------------------------------------------------------------------

  lemma {:induction false} UnreferencedIsZero(rows: seq<Allocation>, i: Id, p: Id)
    ensures (forall r :: r in rows ==> r.invoice != i) ==> SettledBy(rows, i) == 0
    ensures (forall r :: r in rows ==> r.payment != p) ==> DrawnFrom(rows, p) == 0
    decreases |rows|
  {
    if rows != [] {
      assert rows[0] in rows;
      forall r | r in rows[1..] ensures r in rows {}
      UnreferencedIsZero(rows[1..], i, p);
    }
  }

  lemma AddInvoiceKeeps(ar: Ar, id: Id, order: Id, customer: Id, due: int, total: int)
    requires ArOk(ar) && AddInvoice(ar, id, order, customer, due, total).Done?
    ensures var after := AddInvoice(ar, id, order, customer, due, total).value;
            ArOk(after) && Subledger(after) == Subledger(ar) + total
  {
    var after := AddInvoice(ar, id, order, customer, due, total).value;
    UnreferencedIsZero(ar.allocations, id, 0);
    SumByUpdate(ar.invoices, OpenOf, id, after.invoices[id]);
  }

  lemma VoidInvoiceKeeps(ar: Ar, id: Id)
    requires ArOk(ar) && VoidInvoice(ar, id).Done?
    ensures var after := VoidInvoice(ar, id).value;
            ArOk(after) && Subledger(after) == Subledger(ar) - ar.invoices[id].total
  {
    SumByUpdate(ar.invoices, OpenOf, id, ar.invoices[id].(status := InvoiceVoid));
  }

  lemma AddPaymentKeeps(ar: Ar, id: Id, customer: Id, reference: string, amount: int)
    requires ArOk(ar) && AddPayment(ar, id, customer, reference, amount).Done?
    ensures var after := AddPayment(ar, id, customer, reference, amount).value;
            ArOk(after) && Subledger(after) == Subledger(ar) - amount
  {
    var after := AddPayment(ar, id, customer, reference, amount).value;
    UnreferencedIsZero(ar.allocations, 0, id);
    SumByUpdate(ar.payments, UnappliedOf, id, after.payments[id]);
  }

  lemma VoidPaymentKeeps(ar: Ar, id: Id)
    requires ArOk(ar) && VoidPayment(ar, id).Done?
    ensures var after := VoidPayment(ar, id).value;
            ArOk(after) && Subledger(after) == Subledger(ar) + ar.payments[id].amount
  {
    SumByUpdate(ar.payments, UnappliedOf, id, ar.payments[id].(status := PaymentVoid));
  }

  // ---------------------------------------------------------------------------
  // Retried commands
  // ---------------------------------------------------------------------------

  /** Resubmitting a recorded command with its lines in any order succeeds and changes
      nothing; any other body under the same reference is refused. */
  lemma RetryIsExact(ar: Ar, p: Id, request: string, recorded: seq<Target>, body: seq<Target>)
    requires ArOk(ar) && Parsed(recorded) && |TargetIds(recorded)| == |recorded|
    requires CommandKey(p, request) in ar.commands && ar.commands[CommandKey(p, request)] == FingerprintText(recorded)
    ensures multiset(body) == multiset(recorded) ==> Allocate(ar, p, request, body) == Done(ar)
    ensures multiset(body) != multiset(recorded) ==> Allocate(ar, p, request, body).Failed?
  {
    assert PaymentOk(ar.payments[p], DrawnFrom(ar.allocations, p));
    if body != [] { FingerprintIsExact(body, recorded); }
    if multiset(body) == multiset(recorded) {
      SameBodyParses(recorded, body);
    }
  }

  lemma SameBodyParses(recorded: seq<Target>, body: seq<Target>)
    requires Parsed(recorded) && multiset(body) == multiset(recorded)
    ensures Parsed(body) && TargetIds(body) == TargetIds(recorded) && |body| == |recorded|
  {
    assert |multiset(body)| == |body| && |multiset(recorded)| == |recorded|;
    forall t | t in body ensures t in recorded { assert t in multiset(body); }
    forall t | t in recorded ensures t in body { assert t in multiset(recorded); }
  }

  // ---------------------------------------------------------------------------
  // Rebuild of the maintained balances
  // ---------------------------------------------------------------------------

  function RebuiltInvoice(inv: Invoice, settled: int): Invoice {
    inv.(settled := settled,
         status := if inv.status == InvoiceVoid then InvoiceVoid else DerivedStatus(inv.total, settled))
  }

  function RebuiltInvoices(invoices: map<Id, Invoice>, rows: seq<Allocation>): map<Id, Invoice> {
    map i | i in invoices :: RebuiltInvoice(invoices[i], SettledBy(rows, i))
  }

  /** The invoices a rebuild counts as updated: an amount off its rows; a status alone is mended uncounted. */
  function OffInvoices(invoices: map<Id, Invoice>, rows: seq<Allocation>): set<Id> {
    set i | i in invoices && invoices[i].settled != SettledBy(rows, i)
  }

  function OffPayments(payments: map<Id, Payment>, rows: seq<Allocation>): set<Id> {
    set p | p in payments && payments[p].drawn != DrawnFrom(rows, p)
  }

  function RebuiltPayments(payments: map<Id, Payment>, rows: seq<Allocation>): map<Id, Payment> {
    map p | p in payments :: payments[p].(drawn := DrawnFrom(rows, p))
  }

  /** The CHECK constraints of the two tables. */
  predicate RowsPassChecks(invoices: map<Id, Invoice>, payments: map<Id, Payment>) {
    && (forall i :: i in invoices ==>
          && 0 <= invoices[i].settled <= invoices[i].total
          && (invoices[i].status == InvoiceVoid ==> invoices[i].settled == 0))
    && (forall p :: p in payments ==>
          && 0 <= payments[p].drawn <= payments[p].amount
          && (payments[p].status == PaymentVoid ==> payments[p].drawn == 0))
  }

  function RebuildAr(ar: Ar): Outcome<Ar> {
    var invoices := RebuiltInvoices(ar.invoices, ar.allocations);
    var payments := RebuiltPayments(ar.payments, ar.allocations);
    if RowsPassChecks(invoices, payments) then Done(Ar(invoices, payments, ar.commands, ar.allocations))
    else Failed(CheckViolation)
  }

  /** `bad` is `good` with arbitrary settled and drawn amounts and non-void statuses. */
  ghost predicate DriftOf(good: Ar, bad: Ar) {
    && bad.invoices.Keys == good.invoices.Keys && bad.payments.Keys == good.payments.Keys
    && bad.commands == good.commands && bad.allocations == good.allocations
    && (forall i :: i in good.invoices ==>
          && bad.invoices[i].(settled := good.invoices[i].settled, status := good.invoices[i].status) ==
             good.invoices[i]
          && (bad.invoices[i].status == InvoiceVoid <==> good.invoices[i].status == InvoiceVoid))
    && (forall p :: p in good.payments ==>
          bad.payments[p].(drawn := good.payments[p].drawn) == good.payments[p])
  }

  /** From any such drift the rebuild restores exactly the values the allocation
      history produced; in particular it is the identity on a sound subledger. */
  lemma RebuildRestores(good: Ar, bad: Ar)
    requires ArOk(good) && DriftOf(good, bad)
    ensures RebuildAr(bad) == Done(good)
  {
    var invoices := RebuiltInvoices(bad.invoices, bad.allocations);
    var payments := RebuiltPayments(bad.payments, bad.allocations);
    forall i | i in good.invoices ensures invoices[i] == good.invoices[i] {
      assert InvoiceOk(good.invoices[i], SettledBy(good.allocations, i));
    }
    forall p | p in good.payments ensures payments[p] == good.payments[p] {
      assert PaymentOk(good.payments[p], DrawnFrom(good.allocations, p));
    }
    assert invoices == good.invoices && payments == good.payments;
    assert RowsPassChecks(invoices, payments);
  }

  // ---------------------------------------------------------------------------
  // The service
  // ---------------------------------------------------------------------------

  /** How many of `all` are off the work list. */
  function Finished(all: set<Id>, todo: set<Id>): nat { |all - todo| }

  lemma FinishOne(all: set<Id>, todo: set<Id>, x: Id)
    requires x in todo
    ensures Finished(all, todo - {x}) == Finished(all, todo) + if x in all then 1 else 0
  {
    assert all - (todo - {x}) == (all - todo) + (all * {x});
    assert all * {x} == if x in all then {x} else {};
  }

  lemma FinishInvoice(invoices: map<Id, Invoice>, rows: seq<Allocation>, todo: set<Id>, i: Id)
    requires i in todo && i in invoices
    ensures invoices[i].settled == SettledBy(rows, i) ==>
              Finished(OffInvoices(invoices, rows), todo - {i}) == Finished(OffInvoices(invoices, rows), todo)
    ensures invoices[i].settled != SettledBy(rows, i) ==>
              Finished(OffInvoices(invoices, rows), todo - {i}) == Finished(OffInvoices(invoices, rows), todo) + 1
  {
    FinishOne(OffInvoices(invoices, rows), todo, i);
  }

  lemma FinishPayment(payments: map<Id, Payment>, rows: seq<Allocation>, todo: set<Id>, p: Id)
    requires p in todo && p in payments
    ensures Finished(OffPayments(payments, rows), todo - {p}) ==
              Finished(OffPayments(payments, rows), todo) + if payments[p].drawn != DrawnFrom(rows, p) then 1 else 0
  {
    FinishOne(OffPayments(payments, rows), todo, p);
  }

  lemma StartAndEnd(all: set<Id>, todo: set<Id>)
    requires all <= todo
    ensures Finished(all, todo) == 0 && Finished(all, {}) == |all|
  {
    assert all - todo == {} && all - {} == all;
  }

  /** The invoices off the work list are rebuilt, the others as they were. */
  ghost predicate Walked(invoices: map<Id, Invoice>, now: map<Id, Invoice>, rows: seq<Allocation>, todo: set<Id>) {
    && now.Keys == invoices.Keys
    && forall i :: i in invoices ==>
         now[i] == if i in todo then invoices[i] else RebuiltInvoice(invoices[i], SettledBy(rows, i))
  }

  lemma WalkOne(invoices: map<Id, Invoice>, now: map<Id, Invoice>, rows: seq<Allocation>, todo: set<Id>, i: Id)
    requires Walked(invoices, now, rows, todo) && i in todo && i in invoices
    ensures i in now && now[i] == invoices[i]
    ensures Walked(invoices, now[i := RebuiltInvoice(now[i], SettledBy(rows, i))], rows, todo - {i})
  {
  }

  lemma RowByRow(invoices: map<Id, Invoice>, rebuilt: map<Id, Invoice>, rows: seq<Allocation>)
    requires Walked(invoices, rebuilt, rows, {})
    ensures rebuilt == RebuiltInvoices(invoices, rows)
  {
  }

  lemma PaymentByPayment(payments: map<Id, Payment>, rebuilt: map<Id, Payment>, rows: seq<Allocation>)
    requires rebuilt.Keys == payments.Keys
    requires forall p :: p in payments ==> rebuilt[p] == payments[p].(drawn := DrawnFrom(rows, p))
    ensures rebuilt == RebuiltPayments(payments, rows)
  {
  }

  class ReceivablesService {
    var invoices: map<Id, Invoice>
    var payments: map<Id, Payment>
    var commands: map<CommandKey, string>
    var allocations: seq<Allocation>

    ghost function State(): Ar
      reads this
    {
      Ar(invoices, payments, commands, allocations)
    }

    constructor ()
      ensures State() == Ar(map[], map[], map[], [])
    {
      invoices, payments, commands, allocations := map[], map[], map[], [];
    }

    method InsertInvoice(id: Id, order: Id, customer: Id, due: int, total: int) returns (error: Option<Error>)
      modifies this`invoices
      ensures match AddInvoice(old(State()), id, order, customer, due, total)
              case Done(after) => error == None && State() == after
              case Failed(e) => error == Some(e) && State() == old(State())
    {
      if id in invoices || total <= 0 { return Some(CheckViolation); }
      if exists i :: i in invoices && invoices[i].order == order && invoices[i].status != InvoiceVoid {
        return Some(Conflict);
      }
      invoices := invoices[id := Invoice(order, customer, due, total, 0, Unsettled)];
      return None;
    }

    method MarkInvoiceVoid(id: Id) returns (error: Option<Error>)
      modifies this`invoices
      ensures match VoidInvoice(old(State()), id)
              case Done(after) => error == None && State() == after
              case Failed(e) => error == Some(e) && State() == old(State())
    {
      if id !in invoices { return Some(NotFound); }
      var invoice := invoices[id];
      if invoice.status == InvoiceVoid { return Some(Conflict); }
      if invoice.settled != 0 { return Some(Conflict); }
      invoices := invoices[id := invoice.(status := InvoiceVoid)];
      return None;
    }

    method InsertPayment(id: Id, customer: Id, reference: string, amount: int) returns (error: Option<Error>)
      modifies this`payments
      ensures match AddPayment(old(State()), id, customer, reference, amount)
              case Done(after) => error == None && State() == after
              case Failed(e) => error == Some(e) && State() == old(State())
    {
      if amount <= 0 { return Some(Rejected); }
      if id in payments { return Some(CheckViolation); }
      if exists p :: p in payments && payments[p].reference == reference { return Some(Conflict); }
      payments := payments[id := Payment(customer, reference, amount, 0, Received)];
      return None;
    }

    method MarkPaymentVoid(id: Id) returns (error: Option<Error>)
      modifies this`payments
      ensures match VoidPayment(old(State()), id)
              case Done(after) => error == None && State() == after
              case Failed(e) => error == Some(e) && State() == old(State())
    {
      if id !in payments { return Some(NotFound); }
      var payment := payments[id];
      if payment.status == PaymentVoid { return Some(Conflict); }
      if payment.drawn != 0 { return Some(Conflict); }
      payments := payments[id := payment.(status := PaymentVoid)];
      return None;
    }

    method CheckTargets(customer: Id, targets: seq<Target>) returns (ok: bool)
      ensures ok <==> Eligible(State(), customer, targets)
    {
      for k := 0 to |targets|
        invariant Eligible(State(), customer, targets[..k])
      {
        var t := targets[k];
        assert t in targets && targets[..k + 1] == targets[..k] + [t];
        if t.invoice !in invoices { return false; }
        if invoices[t.invoice].status == InvoiceVoid { return false; }
        if invoices[t.invoice].customer != customer { return false; }
      }
      assert targets[..|targets|] == targets;
      return true;
    }

    static method SumRequested(targets: seq<Target>) returns (total: int)
      ensures total == Requested(targets)
    {
      total := 0;
      var rest := targets;
      while rest != []
        invariant total + Requested(rest) == Requested(targets)
        decreases |rest|
      {
        total, rest := total + rest[0].amount, rest[1..];
      }
    }

    method CheckCapacity(targets: seq<Target>) returns (ok: bool)
      requires forall t :: t in targets ==> t.invoice in invoices
      ensures ok <==> WithinInvoices(State(), targets)
    {
      for k := 0 to |targets|
        invariant WithinInvoices(State(), targets[..k])
      {
        var t := targets[k];
        assert t in targets && targets[..k + 1] == targets[..k] + [t];
        if invoices[t.invoice].settled + t.amount > invoices[t.invoice].total { return false; }
      }
      assert targets[..|targets|] == targets;
      return true;
    }

    method WriteAllocations(p: Id, targets: seq<Target>)
      requires forall t :: t in targets ==> t.invoice in invoices
      modifies this`invoices, this`allocations
      ensures invoices == Settle(old(invoices), targets)
      ensures allocations == old(allocations) + NewRows(p, targets)
    {
      var rest := targets;
      while rest != []
        invariant forall t :: t in rest ==> t.invoice in invoices
        invariant Settle(invoices, rest) == Settle(old(invoices), targets)
        invariant allocations + NewRows(p, rest) == old(allocations) + NewRows(p, targets)
        decreases |rest|
      {
        var t := rest[0];
        var invoice := invoices[t.invoice];
        allocations := allocations + [Allocation(p, t.invoice, t.amount)];
        invoice := invoice.(settled := invoice.settled + t.amount);
        if invoice.settled >= invoice.total {
          invoice := invoice.(status := Paid);
        } else if invoice.settled > 0 {
          invoice := invoice.(status := Partial);
        }
        invoices := invoices[t.invoice := invoice];
        rest := rest[1..];
      }
    }

    /** Every check of a command, in order, before anything is written. */
    method JudgeCommand(p: Id, request: string, targets: seq<Target>) returns (error: Option<Error>, replay: bool)
      ensures error.Some? <==> Allocate(State(), p, request, targets).Failed?
      ensures error.Some? ==> Allocate(State(), p, request, targets) == Failed(error.value)
      ensures error == None ==> (replay <==> CommandKey(p, request) in commands)
    {
      replay := false;
      if targets == [] || exists t :: t in targets && t.amount == 0 { return Some(Rejected), false; }
      if |set t | t in targets :: t.invoice| != |targets| { return Some(Rejected), false; }
      if p !in payments { return Some(NotFound), false; }
      if payments[p].status == PaymentVoid { return Some(Conflict), false; }
      var key := CommandKey(p, request);
      if key in commands {
        var fingerprint := FingerprintText(targets);
        if commands[key] == fingerprint { return None, true; }
        return Some(Conflict), false;
      }
      var eligible := CheckTargets(payments[p].customer, targets);
      if !eligible { return Some(Rejected), false; }
      var total := SumRequested(targets);
      if payments[p].drawn + total > payments[p].amount { return Some(Conflict), false; }
      var capacity := CheckCapacity(targets);
      if !capacity { return Some(Conflict), false; }
      return None, false;
    }

    method WriteCommand(p: Id, request: string, text: string, targets: seq<Target>)
      requires Admissible(State(), p, targets)
      modifies this
      ensures State() == Record(old(State()), p, request, text, targets)
    {
      commands := commands[CommandKey(p, request) := text];
      WriteAllocations(p, targets);
      var total := SumRequested(targets);
      payments := payments[p := payments[p].(drawn := payments[p].drawn + total)];
    }

    method AllocatePaymentCore(p: Id, request: string, targets: seq<Target>) returns (error: Option<Error>)
      modifies this
      ensures match Allocate(old(State()), p, request, targets)
              case Done(after) => error == None && State() == after
              case Failed(e) => error == Some(e) && State() == old(State())
    {
      AllocateCases(State(), p, request, targets);
      var replay;
      error, replay := JudgeCommand(p, request, targets);
      if error == None && !replay {
        WriteCommand(p, request, FingerprintText(targets), targets);
      }
    }

    static method RecomputeInvoices(existing: map<Id, Invoice>, rows: seq<Allocation>)
      returns (invoices: map<Id, Invoice>, updated: nat)
      ensures invoices == RebuiltInvoices(existing, rows)
      ensures updated == |OffInvoices(existing, rows)|
    {
      StartAndEnd(OffInvoices(existing, rows), existing.Keys);
      assert Walked(existing, existing, rows, existing.Keys);
      hide OffInvoices, SettledBy, RebuiltInvoices, Finished, Walked;
      invoices, updated := existing, 0;
      var todo := existing.Keys;
      while todo != {}
        invariant todo <= existing.Keys && Walked(existing, invoices, rows, todo)
        invariant updated == Finished(OffInvoices(existing, rows), todo)
        decreases |todo|
      {
        var i :| i in todo;
        WalkOne(existing, invoices, rows, todo, i);
        FinishInvoice(existing, rows, todo, i);
        var invoice := invoices[i];
        var settled := SettledBy(rows, i);
        if invoice.settled != settled {
          invoice := invoice.(settled := settled);
          updated := updated + 1;
        }
        if invoice.status != InvoiceVoid {
          if settled >= invoice.total {
            invoice := invoice.(status := Paid);
          } else if settled > 0 {
            invoice := invoice.(status := Partial);
          } else {
            invoice := invoice.(status := Unsettled);
          }
        }
        assert invoice == RebuiltInvoice(existing[i], settled);
        assert Walked(existing, invoices[i := invoice], rows, todo - {i});
        invoices := invoices[i := invoice];
        todo := todo - {i};
      }
      RowByRow(existing, invoices, rows);
    }

    static method RecomputePayments(existing: map<Id, Payment>, rows: seq<Allocation>)
      returns (payments: map<Id, Payment>, updated: nat)
      ensures payments == RebuiltPayments(existing, rows)
      ensures updated == |OffPayments(existing, rows)|
    {
      StartAndEnd(OffPayments(existing, rows), existing.Keys);
      hide OffPayments, DrawnFrom, RebuiltPayments, Finished;
      payments, updated := existing, 0;
      var todo := existing.Keys;
      while todo != {}
        invariant todo <= existing.Keys && payments.Keys == existing.Keys
        invariant forall p :: p in existing ==>
          payments[p] == if p in todo then existing[p] else existing[p].(drawn := DrawnFrom(rows, p))
        invariant updated == Finished(OffPayments(existing, rows), todo)
        decreases |todo|
      {
        var p :| p in todo;
        var drawn := DrawnFrom(rows, p);
        FinishPayment(existing, rows, todo, p);
        if payments[p].drawn != drawn {
          payments := payments[p := payments[p].(drawn := drawn)];
          updated := updated + 1;
        }
        todo := todo - {p};
      }
      PaymentByPayment(existing, payments, rows);
    }

    /** The rebuild transaction; the CHECK constraints fire when it is flushed. */
    method RebuildCompany() returns (error: Option<Error>, invoicesUpdated: nat, paymentsUpdated: nat)
      modifies this`invoices, this`payments
      ensures match RebuildAr(old(State()))
              case Done(after) =>
                && error == None && State() == after
                && invoicesUpdated == |OffInvoices(old(invoices), old(allocations))|
                && paymentsUpdated == |OffPayments(old(payments), old(allocations))|
              case Failed(e) => error == Some(e) && State() == old(State())
    {
      var savedInvoices, savedPayments := invoices, payments;
      invoices, invoicesUpdated := RecomputeInvoices(invoices, allocations);
      payments, paymentsUpdated := RecomputePayments(payments, allocations);
      if RowsPassChecks(invoices, payments) {
        error := None;
      } else {
        invoices, payments := savedInvoices, savedPayments;
        error := Some(CheckViolation);
      }
    }
  }
}
