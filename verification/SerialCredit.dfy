/** Every service call of the sequential kernel is a run of the credit protocol: taken one
    after the other, its transactions write what the services write. The protocol's guards
    are therefore no stricter than the services'. */
module SerialCredit {
  import opened Common
  import opened Schedules
  import opened Ledger
  import opened Inventory
  import opened Fingerprint
  import opened Receivables
  import opened Sales
  import opened OrderSums
  import opened Credit
  import opened Kernel
  import opened Reachable
  import opened OrderEffects
  import opened ReceivableEffects
  import P = CreditProtocol

  /** The protocol's committed tables are those of the kernel, the customers' terms are the
      ones at hand, and nobody is in the middle of a transaction. */
  ghost predicate Mirrors(t: Tables, s: P.State, customers: Customers, grace: int) {
    && s.orders == t.orders && s.invoices == t.ar.invoices && s.txs == map[]
    && s.terms.Keys == customers.Keys
    && forall c :: c in customers ==> s.terms[c] == P.Terms(customers[c].limit, grace)
  }

  const TX: P.TxId := 0

  /** One transaction is running, and nothing was committed yet. */
  function At(s: P.State, tx: P.Tx): P.State { s.(txs := map[TX := tx]) }

  lemma Begins(s: P.State)
    requires s.txs == map[]
    ensures Reaches(P.Next, s, At(s, P.NEWCOMER))
  {
    hide Reaches;
    Stays(P.Next, s);
    Then(P.Next, s, s, P.Begin(TX));
    assert P.Next(s, P.Begin(TX)) == At(s, P.NEWCOMER);
  }

  /** One step of the only transaction. */
  lemma Goes(s: P.State, tx: P.Tx, a: P.Action, next: P.Tx)
    requires Reaches(P.Next, s, At(s, tx)) && tx.plan == None
    requires !a.Begin? && !a.Commit? && !a.Abort? && !a.SetTerms? && a.t == TX
    requires P.TxNext(At(s, tx), tx, a) == Some(next)
    ensures Reaches(P.Next, s, At(s, next))
  {
    hide P.TxNext, Reaches;
    Then(P.Next, s, At(s, tx), a);
    assert P.Next(At(s, tx), a) == At(s, next);
  }

  /** The transaction decides, and commits what it has decided on. */
  lemma Commits(s: P.State, tx: P.Tx, intent: P.Intent, plan: P.Plan)
    requires Reaches(P.Next, s, At(s, tx)) && s.txs == map[] && tx.plan == None
    requires P.Decision(At(s, tx), tx, intent) == Some(plan)
    ensures Reaches(P.Next, s,
                    s.(orders := P.OrdersAfter(s.orders, plan), invoices := P.InvoicesAfter(s.invoices, plan)))
  {
    hide Reaches, P.OrdersAfter, P.InvoicesAfter, P.Decision;
    var decided := tx.(plan := Some(plan));
    Goes(s, tx, P.Decide(TX, intent), decided);
    Then(P.Next, s, At(s, decided), P.Commit(TX));
    assert At(s, decided).txs - {TX} == map[];
  }

  /** Pricing looks at the order alone. */
  lemma OneOrder(orders: map<Id, Order>, seen: map<Id, Order>, id: Id, known: set<Id>, catalog: Catalog)
    requires id in orders && id in seen && seen[id] == orders[id]
    ensures PriceForConfirm(seen, id, known, catalog) == PriceForConfirm(orders, id, known, catalog)
    ensures Priced(orders[id].lines, catalog) ==>
              MarkConfirmed(seen, id, catalog)[id] == MarkConfirmed(orders, id, catalog)[id]
  {
  }

  // ---------------------------------------------------------------------------
  // One transaction, alone
  // ---------------------------------------------------------------------------

  lemma Confirmation(s: P.State, id: Id, catalog: Catalog)
    requires s.txs == map[] && id in s.orders && s.orders[id].id == id
    requires PriceForConfirm(s.orders, id, s.terms.Keys, catalog).Done?
    requires P.Passes(s, s.orders[id].customer, PriceForConfirm(s.orders, id, s.terms.Keys, catalog).value)
    ensures Reaches(P.Next, s, s.(orders := MarkConfirmed(s.orders, id, catalog)))
  {
    hide Reaches, Exposure, Repriced, ExactTotal, Stored, Priced;
    var seen, c := map[id := s.orders[id]], s.orders[id].customer;
    var locked := OrderLocked(s, id);
    var ready := locked.(held := locked.held + {P.CustomerRow(c)});
    LocksOrder(s, id);
    Goes(s, locked, P.LockCustomer(TX, c), ready);
    OneOrder(s.orders, seen, id, s.terms.Keys, catalog);
    Commits(s, ready, P.ToConfirm(id, catalog), P.OrderPlan(id, MarkConfirmed(seen, id, catalog)[id]));
  }

  function OrderLocked(s: P.State, id: Id): P.Tx
    requires id in s.orders
  {
    P.Tx({P.OrderRow(id)}, map[id := s.orders[id]], map[], None)
  }

  lemma LocksOrder(s: P.State, id: Id)
    requires s.txs == map[] && id in s.orders
    ensures Reaches(P.Next, s, At(s, OrderLocked(s, id)))
  {
    hide Reaches;
    Begins(s);
    assert P.NEWCOMER.held + {P.OrderRow(id)} == {P.OrderRow(id)};
    assert P.NEWCOMER.orders[id := s.orders[id]] == map[id := s.orders[id]];
    Goes(s, P.NEWCOMER, P.LockOrder(TX, id), OrderLocked(s, id));
  }

  /** Locks the order, decides on the new row, commits it. */
  lemma OrderIsRewritten(s: P.State, id: Id, intent: P.Intent, row: Order)
    requires s.txs == map[] && id in s.orders
    requires P.Decision(At(s, OrderLocked(s, id)), OrderLocked(s, id), intent) == Some(P.OrderPlan(id, row))
    ensures Reaches(P.Next, s, s.(orders := s.orders[id := row]))
  {
    hide Reaches, P.Decision;
    LocksOrder(s, id);
    Commits(s, OrderLocked(s, id), intent, P.OrderPlan(id, row));
  }

  lemma Shipment(s: P.State, id: Id, at: Date)
    requires s.txs == map[] && id in s.orders && s.orders[id].status == Confirmed
    ensures Reaches(P.Next, s, s.(orders := MarkShipped(s.orders, id, at)))
  {
    hide Reaches;
    OrderIsRewritten(s, id, P.ToShip(id, at), MarkShipped(s.orders, id, at)[id]);
  }

  lemma Cancellation(s: P.State, id: Id)
    requires s.txs == map[] && Cancel(s.orders, id).Done?
    ensures Reaches(P.Next, s, s.(orders := Cancel(s.orders, id).value))
  {
    hide Reaches;
    OrderIsRewritten(s, id, P.ToCancel(id), Cancel(s.orders, id).value[id]);
  }

  lemma Drafting(s: P.State, id: Id, row: Order)
    requires s.txs == map[] && (id in s.orders ==> s.orders[id].status == Draft)
    requires row.status == Draft && row.id == id && row.total >= 0
    ensures Reaches(P.Next, s, s.(orders := s.orders[id := row]))
  {
    hide Reaches;
    if id in s.orders {
      OrderIsRewritten(s, id, P.ToDraft(id, row), row);
    } else {
      var claimed := P.NEWCOMER.(held := P.NEWCOMER.held + {P.OrderRow(id)});
      Begins(s);
      Goes(s, P.NEWCOMER, P.ClaimOrder(TX, id), claimed);
      Commits(s, claimed, P.ToDraft(id, row), P.OrderPlan(id, row));
    }
  }

  lemma Issuing(s: P.State, i: Id, o: Id, due: int)
    requires s.txs == map[] && i !in s.invoices && o in s.orders
    requires s.orders[o].status == Shipped && s.orders[o].total > 0 && !HasLiveInvoice(s.invoices, o)
    ensures var row := Invoice(o, s.orders[o].customer, due, s.orders[o].total, 0, Unsettled);
            Reaches(P.Next, s, s.(invoices := s.invoices[i := row]))
  {
    hide Reaches, HasLiveInvoice;
    var reader := P.NEWCOMER.(orders := P.NEWCOMER.orders[o := s.orders[o]]);
    var inserter := reader.(held := reader.held + {P.InvoiceRow(i)});
    var ready := inserter.(held := inserter.held + {P.LiveIndex(o)});
    Begins(s);
    Goes(s, P.NEWCOMER, P.ReadOrder(TX, o), reader);
    Goes(s, reader, P.ClaimInvoice(TX, i), inserter);
    Goes(s, inserter, P.ClaimLive(TX, o), ready);
    var row := Invoice(o, s.orders[o].customer, due, s.orders[o].total, 0, Unsettled);
    Commits(s, ready, P.ToIssue(i, o, due), P.InvoicePlan(i, row));
  }

  lemma Voiding(s: P.State, i: Id)
    requires s.txs == map[] && i in s.invoices
    requires s.invoices[i].status != InvoiceVoid && s.invoices[i].settled == 0
    ensures Reaches(P.Next, s, s.(invoices := s.invoices[i := s.invoices[i].(status := InvoiceVoid)]))
  {
    hide Reaches;
    var locked := P.NEWCOMER.(held := P.NEWCOMER.held + {P.InvoiceRow(i)},
                              invoices := P.NEWCOMER.invoices[i := s.invoices[i]]);
    Begins(s);
    Goes(s, P.NEWCOMER, P.LockInvoice(TX, i), locked);
    Commits(s, locked, P.ToVoid(i), P.InvoicePlan(i, s.invoices[i].(status := InvoiceVoid)));
  }

  /** What the transaction is once it has locked the first `k` invoices. */
  function Holding(s: P.State, ids: seq<Id>, k: nat): P.Tx
    requires k <= |ids| && forall i :: i in ids ==> i in s.invoices
  {
    P.Tx(set j | 0 <= j < k :: P.InvoiceRow(ids[j]), map[], map i | i in ids[..k] :: s.invoices[i], None)
  }

  lemma {:induction false} LocksInvoices(s: P.State, ids: seq<Id>, k: nat)
    requires s.txs == map[] && k <= |ids| && forall i :: i in ids ==> i in s.invoices
    requires forall i, j :: 0 <= i < j < |ids| ==> ids[i] != ids[j]
    ensures Reaches(P.Next, s, At(s, Holding(s, ids, k)))
    decreases k
  {
    hide Reaches;
    if k == 0 {
      Begins(s);
      assert Holding(s, ids, 0) == P.NEWCOMER;
    } else {
      LocksInvoices(s, ids, k - 1);
      OneLockMore(s, ids, k);
      Goes(s, Holding(s, ids, k - 1), P.LockInvoice(TX, ids[k - 1]), Holding(s, ids, k));
    }
  }

  lemma OneLockMore(s: P.State, ids: seq<Id>, k: nat)
    requires 0 < k <= |ids| && forall i :: i in ids ==> i in s.invoices
    requires forall i, j :: 0 <= i < j < |ids| ==> ids[i] != ids[j]
    ensures var tx, i := Holding(s, ids, k - 1), ids[k - 1];
            P.TxNext(At(s, tx), tx, P.LockInvoice(TX, i)) == Some(Holding(s, ids, k))
  {
    var tx, i := Holding(s, ids, k - 1), ids[k - 1];
    assert ids[..k] == ids[..k - 1] + [i];
    assert tx.held + {P.InvoiceRow(i)} == Holding(s, ids, k).held;
    assert tx.invoices[i := s.invoices[i]] == Holding(s, ids, k).invoices;
  }

  lemma Settling(s: P.State, targets: seq<Target>)
    requires s.txs == map[] && |TargetIds(targets)| == |targets| && NoTwice(targets)
    requires forall x :: x in targets ==>
               && x.amount > 0 && x.invoice in s.invoices && s.invoices[x.invoice].status != InvoiceVoid
               && s.invoices[x.invoice].settled + x.amount <= s.invoices[x.invoice].total
    ensures Reaches(P.Next, s, s.(invoices := Settle(s.invoices, targets)))
  {
    hide Reaches, Settle, TargetIds;
    var ids := seq(|targets|, k requires 0 <= k < |targets| => targets[k].invoice);
    forall i | i in ids ensures i in s.invoices {
      var k :| 0 <= k < |ids| && ids[k] == i;
      assert targets[k] in targets;
    }
    LocksInvoices(s, ids, |ids|);
    var tx := Holding(s, ids, |ids|);
    forall x | x in targets
      ensures P.InvoiceRow(x.invoice) in tx.held && x.invoice in tx.invoices
      ensures tx.invoices[x.invoice] == s.invoices[x.invoice]
    {
      var k :| 0 <= k < |targets| && targets[k] == x;
      assert ids[k] == x.invoice;
    }
    SettlingCommits(s, tx, targets);
  }

  lemma SettlingCommits(s: P.State, tx: P.Tx, targets: seq<Target>)
    requires s.txs == map[] && tx.plan == None && Reaches(P.Next, s, At(s, tx)) && P.Settleable(tx, targets)
    requires forall x :: x in targets ==> x.invoice in s.invoices
    ensures Reaches(P.Next, s, s.(invoices := Settle(s.invoices, targets)))
  {
    hide Reaches, Settle, P.Settleable;
    Commits(s, tx, P.ToSettle(targets), P.SettlePlan(targets));
  }

  // ---------------------------------------------------------------------------
  // Every service call
  // ---------------------------------------------------------------------------

  /** Some schedule takes the protocol from `s` to a state with the kernel's tables `after`. */
  ghost predicate Reproduces(s: P.State, after: Tables, customers: Customers, grace: int) {
    exists u :: Reaches(P.Next, s, u) && Mirrors(after, u, customers, grace)
  }

  lemma Arrives(t: Tables, s: P.State, u: P.State, after: Tables, customers: Customers, grace: int)
    requires Mirrors(t, s, customers, grace) && Reaches(P.Next, s, u)
    requires u == s.(orders := after.orders, invoices := after.ar.invoices)
    ensures Reproduces(s, after, customers, grace)
  {
    hide Reaches;
    assert Mirrors(after, u, customers, grace);
  }

  lemma NothingRuns(t: Tables, s: P.State, after: Tables, customers: Customers, grace: int)
    requires Mirrors(t, s, customers, grace) && after.orders == t.orders && after.ar.invoices == t.ar.invoices
    ensures Reproduces(s, after, customers, grace)
  {
    hide Reaches;
    Stays(P.Next, s);
    Arrives(t, s, s, after, customers, grace);
  }

  lemma ConfirmRuns(t: Tables, s: P.State, op: Op, customers: Customers, grace: int)
    requires KernelOk(t) && Mirrors(t, s, customers, grace)
    requires op.ConfirmOp? && op.customers == customers && op.grace == grace && Perform(t, op).Done?
    ensures Reproduces(s, Perform(t, op).value, customers, grace)
  {
    hide Reaches, KernelOk, Exposure, Repriced, ExactTotal, Stored, Priced, Reproduces;
    DraftIsFiled(t, op.id);
    Confirmation(s, op.id, op.catalog);
    var orders := MarkConfirmed(t.orders, op.id, op.catalog);
    Arrives(t, s, s.(orders := orders), Perform(t, op).value, customers, grace);
  }

  lemma OrderRuns(t: Tables, s: P.State, op: Op, customers: Customers, grace: int)
    requires Reached(t) && Mirrors(t, s, customers, grace)
    requires (op.ShipOp? || op.CancelOp?) && Perform(t, op).Done?
    ensures Reproduces(s, Perform(t, op).value, customers, grace)
  {
    hide Reaches, Reached, Reproduces, ShipOrder, InStock, CanPostCost;
    match op {
      case ShipOp(id, catalog, at) =>
        ShipsIffPossible(t, id, catalog, at);
        ShippingMovesAndPosts(t, id, catalog, at, 0, 0);
        Shipment(s, id, at);
        Arrives(t, s, s.(orders := MarkShipped(s.orders, id, at)), Perform(t, op).value, customers, grace);
      case CancelOp(id) =>
        CancelsIff(t, id);
        Cancellation(s, id);
        Arrives(t, s, s.(orders := Cancel(s.orders, id).value), Perform(t, op).value, customers, grace);
    }
  }

  /** The order row that drafting or editing writes. */
  lemma DraftRuns(t: Tables, s: P.State, op: Op, customers: Customers, grace: int)
    requires Reached(t) && Mirrors(t, s, customers, grace)
    requires (op.CreateOrderOp? || op.UpdateOrderOp?) && Perform(t, op).Done?
    ensures Reproduces(s, Perform(t, op).value, customers, grace)
  {
    hide Reaches, Reached, KernelOk, Reproduces, Create, Update, Acceptable, FiledOrder;
    var after := Perform(t, op).value;
    match op {
      case CreateOrderOp(id, customer, known, lines, catalog) =>
        CreateFiles(t, id, customer, known, lines, catalog);
        CreatesIff(t, id, customer, known, lines, catalog);
      case UpdateOrderOp(id, lines, catalog) =>
        UpdateFiles(t, id, lines, catalog);
        UpdatesIff(t, id, lines, catalog);
    }
    ReachedIsOk(t);
    ApplyKeeps(t, op);
    DraftIsFiled(after, op.id);
    TotalIsSound(after, op.id);
    var row := after.orders[op.id];
    Drafting(s, op.id, row);
    assert after.orders == t.orders[op.id := row];
    Arrives(t, s, s.(orders := s.orders[op.id := row]), after, customers, grace);
  }

  lemma TotalIsSound(t: Tables, id: Id)
    requires KernelOk(t) && id in t.orders
    ensures t.orders[id].total >= 0
  {
    hide BooksOk, StockOk, ArOk, Linked, SourcesKnown, DocumentsPosted, OutboxApplied, TiesOut, LinesSound;
  }

  lemma InvoiceRuns(t: Tables, s: P.State, op: Op, customers: Customers, grace: int)
    requires Reached(t) && Mirrors(t, s, customers, grace)
    requires (op.IssueOp? || op.VoidInvoiceOp?) && Perform(t, op).Done?
    ensures Reproduces(s, Perform(t, op).value, customers, grace)
  {
    hide Reaches, Reached, Reproduces, Issue, Void, Moves, BooksCarry, HasLiveInvoice;
    var after := Perform(t, op).value;
    match op {
      case IssueOp(id, order, date, due, known) =>
        IssuesIffPossible(t, id, order, date, due, known);
        IssueWrites(t, id, order, date, due, known);
        Issuing(s, id, order, after.ar.invoices[id].due);
        Arrives(t, s, s.(invoices := after.ar.invoices), after, customers, grace);
      case VoidInvoiceOp(id, today) =>
        VoidsIffPossible(t, id, today);
        VoidWrites(t, id, today);
        BalancesMatchRows(t, id, 0);
        Voiding(s, id);
        Arrives(t, s, s.(invoices := after.ar.invoices), after, customers, grace);
    }
  }

  /** What `Written` says of the invoices is what settling them line by line yields. */
  lemma WrittenIsSettled(ar: Ar, p: Id, request: string, targets: seq<Target>, after: Ar)
    requires InvoicesOk(ar) && Admissible(ar, p, targets) && Written(ar, p, request, targets, after)
    ensures after.invoices == Settle(ar.invoices, targets)
  {
    hide InvoicesOk;
    SameInvoices(ar, p, targets);
    forall i | i in ar.invoices ensures after.invoices[i] == Settle(ar.invoices, targets)[i] {
      InvoiceIsPaidDown(ar, p, targets, i);
    }
  }

  lemma SettlementRuns(t: Tables, s: P.State, filed: Ar, p: Id, request: string, targets: seq<Target>, after: Tables,
                       customers: Customers, grace: int)
    requires Mirrors(t, s, customers, grace) && filed.invoices == t.ar.invoices && after.orders == t.orders
    requires InvoicesOk(filed) && Admissible(filed, p, targets) && Written(filed, p, request, targets, after.ar)
    ensures Reproduces(s, after, customers, grace)
  {
    hide Reaches, Reproduces, Written, InvoicesOk, Settle;
    WrittenIsSettled(filed, p, request, targets, after.ar);
    CountedMeansDistinct(targets);
    Settling(s, targets);
    Arrives(t, s, s.(invoices := Settle(s.invoices, targets)), after, customers, grace);
  }

  lemma PaymentRuns(t: Tables, s: P.State, op: Op, customers: Customers, grace: int)
    requires Reached(t) && Mirrors(t, s, customers, grace)
    requires (op.ReceiveOp? || op.AllocateOp?) && Perform(t, op).Done?
    ensures Reproduces(s, Perform(t, op).value, customers, grace)
  {
    hide Reaches, Reached, Reproduces, Receive, Allocate, Moves, Written, WellFormed, Payable, BooksCarry, Admissible,
        InvoicesOk, Mirrors;
    var after := Perform(t, op).value;
    RowsAreSound(t);
    match op {
      case ReceiveOp(id, customer, known, reference, amount, at, targets) =>
        ReceivesIff(t, id, customer, known, reference, amount, at, targets);
        ReceiveWrites(t, id, customer, known, reference, amount, at, targets);
        var filed := t.ar.(payments := t.ar.payments[id := Payment(customer, reference, amount, 0, Received)]);
        if targets == [] {
          NothingRuns(t, s, after, customers, grace);
        } else {
          SoundWithPayment(t.ar, filed);
          AdmissibleIff(filed, id, targets);
          SettlementRuns(t, s, filed, id, reference, targets, after, customers, grace);
        }
      case AllocateOp(p, request, targets) =>
        AllocateCases(t.ar, p, request, targets);
        if CommandKey(p, request) in t.ar.commands {
          NothingRuns(t, s, after, customers, grace);
        } else {
          AllocateWrites(t, p, request, targets);
          SettlementRuns(t, s, t.ar, p, request, targets, after, customers, grace);
        }
    }
  }

  /** Services that touch neither orders nor invoices. */
  lemma OtherServicesAreQuiet(t: Tables, op: Op)
    requires Reached(t) && Perform(t, op).Done?
    requires op.AdjustOp? || op.VoidPaymentOp? || op.ManualEntryOp? || op.ReverseOp? || op.OpenPeriodOp?
          || op.ClosePeriodOp? || op.AccountOp? || op.RebuildStockOp? || op.RebuildArOp? || op.RedeliverOp?
    ensures Perform(t, op).value.orders == t.orders && Perform(t, op).value.ar.invoices == t.ar.invoices
  {
    hide Reached, ApplyMove, VoidReceipt, Post, Reverse, Dispatch, Rebuild, RebuildAr;
    match op {
      case VoidPaymentOp(id, today) => VoidReceiptFrame(t, id, today);
      case RebuildStockOp => RebuildsAreIdentity(t);
      case RebuildArOp => RebuildsAreIdentity(t);
      case RedeliverOp(row) => RedeliveryIsHarmless(t, row);
      case _ =>
    }
  }

  lemma ServiceIsReproduced(t: Tables, s: P.State, op: Op, customers: Customers, grace: int)
    requires Reached(t) && Mirrors(t, s, customers, grace)
    requires op.ConfirmOp? ==> op.customers == customers && op.grace == grace
    ensures Reproduces(s, Apply(t, op), customers, grace)
  {
    hide Reaches, Reproduces, Reached, Perform, Mirrors;
    if Perform(t, op).Failed? {
      NothingRuns(t, s, t, customers, grace);
    } else {
      match op {
        case ConfirmOp(_, _, _, _, _) => ReachedIsOk(t); ConfirmRuns(t, s, op, customers, grace);
        case ShipOp(_, _, _) => OrderRuns(t, s, op, customers, grace);
        case CancelOp(_) => OrderRuns(t, s, op, customers, grace);
        case CreateOrderOp(_, _, _, _, _) => DraftRuns(t, s, op, customers, grace);
        case UpdateOrderOp(_, _, _) => DraftRuns(t, s, op, customers, grace);
        case IssueOp(_, _, _, _, _) => InvoiceRuns(t, s, op, customers, grace);
        case VoidInvoiceOp(_, _) => InvoiceRuns(t, s, op, customers, grace);
        case ReceiveOp(_, _, _, _, _, _, _) => PaymentRuns(t, s, op, customers, grace);
        case AllocateOp(_, _, _) => PaymentRuns(t, s, op, customers, grace);
        case _ =>
          OtherServicesAreQuiet(t, op);
          NothingRuns(t, s, Perform(t, op).value, customers, grace);
      }
    }
  }

  lemma {:induction false} FoldIsRun(s: P.State, actions: seq<P.Action>)
    ensures Fold(P.Next, s, actions) == P.Run(s, actions)
    decreases |actions|
  {
    if actions != [] { FoldIsRun(P.Next(s, actions[0]), actions[1..]); }
  }

  /** Whatever the services write to orders and invoices, some schedule of the protocol
      writes too: it refuses nothing that the services accept. */
  lemma EveryServiceRuns(t: Tables, s: P.State, op: Op, customers: Customers, grace: int)
    requires Reached(t) && Mirrors(t, s, customers, grace)
    requires op.ConfirmOp? ==> op.customers == customers && op.grace == grace
    ensures exists actions :: Mirrors(Apply(t, op), P.Run(s, actions), customers, grace)
  {
    hide Reached, Mirrors, Apply;
    ServiceIsReproduced(t, s, op, customers, grace);
    var u :| Reaches(P.Next, s, u) && Mirrors(Apply(t, op), u, customers, grace);
    var actions: seq<P.Action> :| Fold(P.Next, s, actions) == u;
    FoldIsRun(s, actions);
  }
}
