/** The credit limit under concurrency. Transactions that confirm, ship, cancel, draft,
    issue, void and settle interleave step by step: each locks or reads rows, decides
    from what it has seen, and commits its writes later. The database contributes row
    locks, the unique index on an order's live invoice, and reads of the last committed
    rows. */
module CreditProtocol {
  import opened Common
  import opened Fingerprint
  import opened Receivables
  import opened Sales
  import opened Credit

  type TxId = nat

  datatype Lock = OrderRow(order: Id) | CustomerRow(customer: Id) | InvoiceRow(invoice: Id) | LiveIndex(order: Id)

  /** The writes a transaction has decided on. */
  datatype Plan =
    | OrderPlan(order: Id, row: Order)
    | InvoicePlan(id: Id, invoice: Invoice)
    | SettlePlan(targets: seq<Target>)

  /** `orders` and `invoices` are the rows its session has read. */
  datatype Tx = Tx(held: set<Lock>, orders: map<Id, Order>, invoices: map<Id, Invoice>, plan: Option<Plan>)

  const NEWCOMER := Tx({}, map[], map[], None)

  datatype Terms = Terms(limit: int, grace: int)

  /** Committed tables, the customers' terms, and the running transactions. */
  datatype State = State(orders: map<Id, Order>, invoices: map<Id, Invoice>, terms: map<Id, Terms>, txs: map<TxId, Tx>)

  datatype Intent =
    | ToConfirm(order: Id, catalog: Catalog)
    | ToShip(order: Id, at: Date)
    | ToCancel(order: Id)
    | ToDraft(order: Id, row: Order)
    | ToIssue(id: Id, order: Id, due: int)
    | ToVoid(id: Id)
    | ToSettle(targets: seq<Target>)

  datatype Action =
    | Begin(t: TxId)
    | LockOrder(t: TxId, order: Id)
    | ClaimOrder(t: TxId, order: Id)
    | ReadOrder(t: TxId, order: Id)
    | LockCustomer(t: TxId, customer: Id)
    | LockInvoice(t: TxId, invoice: Id)
    | ClaimInvoice(t: TxId, invoice: Id)
    | ClaimLive(t: TxId, order: Id)
    | Decide(t: TxId, intent: Intent)
    | Commit(t: TxId)
    | Abort(t: TxId)
    | SetTerms(customer: Id, terms: Terms)

  // ---------------------------------------------------------------------------
  // Deciding
  // ---------------------------------------------------------------------------

  /** Every target is a locked live invoice with enough left, and none repeats. */
  predicate Settleable(tx: Tx, targets: seq<Target>) {
    && |TargetIds(targets)| == |targets|
    && forall t :: t in targets ==>
         && t.amount > 0 && InvoiceRow(t.invoice) in tx.held && t.invoice in tx.invoices
         && tx.invoices[t.invoice].status != InvoiceVoid
         && tx.invoices[t.invoice].settled + t.amount <= tx.invoices[t.invoice].total
  }

  /** What the transaction makes of the rows it has seen; only the exposure and the
      limit of a confirmation are read at this moment. */
  ghost function Decision(s: State, tx: Tx, intent: Intent): Option<Plan> {
    match intent
    case ToConfirm(o, catalog) =>
      if OrderRow(o) in tx.held && PriceForConfirm(tx.orders, o, s.terms.Keys, catalog).Done? && tx.orders[o].id == o
           && CustomerRow(tx.orders[o].customer) in tx.held
           && Passes(s, tx.orders[o].customer, PriceForConfirm(tx.orders, o, s.terms.Keys, catalog).value)
      then Some(OrderPlan(o, MarkConfirmed(tx.orders, o, catalog)[o])) else None
    case ToShip(o, at) =>
      if OrderRow(o) in tx.held && o in tx.orders && tx.orders[o].status == Confirmed
      then Some(OrderPlan(o, MarkShipped(tx.orders, o, at)[o])) else None
    case ToCancel(o) =>
      if OrderRow(o) in tx.held && Cancel(tx.orders, o).Done?
      then Some(OrderPlan(o, Cancel(tx.orders, o).value[o])) else None
    case ToDraft(o, row) =>
      if OrderRow(o) in tx.held && (o in tx.orders ==> tx.orders[o].status == Draft)
           && row.status == Draft && row.id == o && row.total >= 0
      then Some(OrderPlan(o, row)) else None
    case ToIssue(i, o, due) =>
      if InvoiceRow(i) in tx.held && i !in tx.invoices && LiveIndex(o) in tx.held
           && o in tx.orders && tx.orders[o].status == Shipped && tx.orders[o].total > 0
      then Some(InvoicePlan(i, Invoice(o, tx.orders[o].customer, due, tx.orders[o].total, 0, Unsettled))) else None
    case ToVoid(i) =>
      if InvoiceRow(i) in tx.held && i in tx.invoices
         && tx.invoices[i].status != InvoiceVoid && tx.invoices[i].settled == 0
      then Some(InvoicePlan(i, tx.invoices[i].(status := InvoiceVoid))) else None
    case ToSettle(targets) => if Settleable(tx, targets) then Some(SettlePlan(targets)) else None
  }

  /** The hook's comparison, against the exposure committed right now. */
  ghost predicate Passes(s: State, c: Id, exact: int)
    requires c in s.terms
  {
    PassesLimit(s.terms[c].limit, s.terms[c].grace, Exposure(s.orders, s.invoices, c), exact)
  }

  // ---------------------------------------------------------------------------
  // Steps
  // ---------------------------------------------------------------------------

  predicate Free(s: State, l: Lock) {
    forall t :: t in s.txs ==> l !in s.txs[t].held
  }

  /** What one step makes of a running transaction, None while it has to wait. */
  ghost function TxNext(s: State, tx: Tx, a: Action): Option<Tx> {
    match a
    case LockOrder(_, o) =>
      if o in s.orders && Free(s, OrderRow(o))
      then Some(tx.(held := tx.held + {OrderRow(o)}, orders := tx.orders[o := s.orders[o]])) else None
    case ClaimOrder(_, o) =>
      if o !in s.orders && o !in tx.orders && Free(s, OrderRow(o))
      then Some(tx.(held := tx.held + {OrderRow(o)})) else None
    case ReadOrder(_, o) => if o in s.orders then Some(tx.(orders := tx.orders[o := s.orders[o]])) else None
    case LockCustomer(_, c) => if Free(s, CustomerRow(c)) then Some(tx.(held := tx.held + {CustomerRow(c)})) else None
    case LockInvoice(_, i) =>
      if i in s.invoices && Free(s, InvoiceRow(i))
      then Some(tx.(held := tx.held + {InvoiceRow(i)}, invoices := tx.invoices[i := s.invoices[i]])) else None
    case ClaimInvoice(_, i) =>
      if i !in s.invoices && i !in tx.invoices && Free(s, InvoiceRow(i))
      then Some(tx.(held := tx.held + {InvoiceRow(i)})) else None
    case ClaimLive(_, o) =>
      if !HasLiveInvoice(s.invoices, o) && Free(s, LiveIndex(o))
      then Some(tx.(held := tx.held + {LiveIndex(o)})) else None
    case Decide(_, intent) =>
      if Decision(s, tx, intent).Some? then Some(tx.(plan := Decision(s, tx, intent))) else None
    case _ => None
  }

  function OrdersAfter(orders: map<Id, Order>, plan: Plan): map<Id, Order> {
    if plan.OrderPlan? then orders[plan.order := plan.row] else orders
  }

  function InvoicesAfter(invoices: map<Id, Invoice>, plan: Plan): map<Id, Invoice> {
    match plan
    case OrderPlan(_, _) => invoices
    case InvoicePlan(i, inv) => invoices[i := inv]
    case SettlePlan(targets) =>
      if forall t :: t in targets ==> t.invoice in invoices then Settle(invoices, targets) else invoices
  }

  /** Terms may be edited at any time; a limit in force never falls and never vanishes. */
  predicate MayEdit(s: State, c: Id, terms: Terms) {
    c in s.terms && s.terms[c].limit != 0 ==>
      terms.limit != 0 && s.terms[c].limit + s.terms[c].grace <= terms.limit + terms.grace
  }

  ghost function Next(s: State, a: Action): State {
    match a
    case Begin(t) => if t in s.txs then s else s.(txs := s.txs[t := NEWCOMER])
    case Commit(t) =>
      if t !in s.txs || s.txs[t].plan == None then s else
      var plan := s.txs[t].plan.value;
      s.(orders := OrdersAfter(s.orders, plan), invoices := InvoicesAfter(s.invoices, plan), txs := s.txs - {t})
    case Abort(t) => s.(txs := s.txs - {t})
    case SetTerms(c, terms) => if MayEdit(s, c, terms) then s.(terms := s.terms[c := terms]) else s
    case _ =>
      if a.t !in s.txs || s.txs[a.t].plan.Some? || TxNext(s, s.txs[a.t], a) == None then s
      else s.(txs := s.txs[a.t := TxNext(s, s.txs[a.t], a).value])
  }

  ghost function Run(s: State, actions: seq<Action>): State
    decreases |actions|
  {
    if actions == [] then s else Run(Next(s, actions[0]), actions[1..])
  }

  // ---------------------------------------------------------------------------
  // Invariant
  // ---------------------------------------------------------------------------

  /** What a session has read of a locked row, and of any shipped order, is still what is
      committed; ids and index slots it claimed are still free. */
  ghost predicate SeenOk(orders: map<Id, Order>, invoices: map<Id, Invoice>, tx: Tx) {
    && (forall o :: o in tx.orders && (OrderRow(o) in tx.held || tx.orders[o].status == Shipped) ==>
          o in orders && orders[o] == tx.orders[o])
    && (forall i :: i in tx.invoices && InvoiceRow(i) in tx.held ==> i in invoices && invoices[i] == tx.invoices[i])
    && (forall o :: OrderRow(o) in tx.held && o !in tx.orders ==> o !in orders)
    && (forall i :: InvoiceRow(i) in tx.held && i !in tx.invoices ==> i !in invoices)
    && (forall o :: LiveIndex(o) in tx.held ==> !HasLiveInvoice(invoices, o))
  }

  /** What a plan may write, given what was locked and seen. */
  ghost predicate PlanOk(tx: Tx, plan: Plan) {
    match plan
    case OrderPlan(o, row) =>
      && OrderRow(o) in tx.held && row.total >= 0
      && (match row.status
          case Draft => row.id == o && (o in tx.orders ==> tx.orders[o].status == Draft)
          case Confirmed =>
            && o in tx.orders && tx.orders[o].status == Draft && row.id == o
            && row.customer == tx.orders[o].customer && CustomerRow(row.customer) in tx.held
          case Shipped =>
            && o in tx.orders && tx.orders[o].status == Confirmed
            && row == tx.orders[o].(status := Shipped, shippedDay := row.shippedDay)
          case Cancelled =>
            && o in tx.orders && (tx.orders[o].status == Draft || tx.orders[o].status == Confirmed)
            && row == tx.orders[o].(status := Cancelled))
    case InvoicePlan(i, inv) =>
      && InvoiceRow(i) in tx.held
      && (if i in tx.invoices
          then tx.invoices[i].status != InvoiceVoid && tx.invoices[i].settled == 0
               && inv == tx.invoices[i].(status := InvoiceVoid)
          else
            && LiveIndex(inv.order) in tx.held && inv.order in tx.orders && tx.orders[inv.order].status == Shipped
            && inv.status == Unsettled && inv.settled == 0
            && inv.total == tx.orders[inv.order].total && inv.customer == tx.orders[inv.order].customer)
    case SettlePlan(targets) => Settleable(tx, targets)
  }

  /** The rise in the exposure of `c` that committing the plan brings. */
  function Rise(plan: Plan, c: Id): int {
    if plan.OrderPlan? && plan.row.status == Confirmed && plan.row.customer == c then plan.row.total else 0
  }

  ghost predicate Within(s: State, c: Id, rise: int) {
    && c in s.terms && s.terms[c].limit != 0
    && Exposure(s.orders, s.invoices, c) + rise <= s.terms[c].limit + s.terms[c].grace
  }

  /** A decided confirmation still fits, for every customer that is watched. */
  ghost predicate StillFits(s: State, tx: Tx, watched: set<Id>) {
    forall c :: tx.plan.Some? && c in watched ==> Within(s, c, Rise(tx.plan.value, c))
  }

  ghost predicate TxsOk(s: State) {
    forall t :: t in s.txs ==>
      SeenOk(s.orders, s.invoices, s.txs[t]) && (s.txs[t].plan.Some? ==> PlanOk(s.txs[t], s.txs[t].plan.value))
  }

  ghost predicate LocksApart(s: State) {
    forall t, u :: t in s.txs && u in s.txs && t != u ==> s.txs[t].held !! s.txs[u].held
  }

  ghost predicate AllFit(s: State, watched: set<Id>) {
    && (forall c :: c in watched ==> Within(s, c, 0))
    && (forall t :: t in s.txs ==> StillFits(s, s.txs[t], watched))
  }

  ghost predicate Invariant(s: State, watched: set<Id>) {
    CreditTablesOk(s.orders, s.invoices) && TxsOk(s) && LocksApart(s) && AllFit(s, watched)
  }

  // ---------------------------------------------------------------------------
  // A commit, against the tables as they are by then
  // ---------------------------------------------------------------------------

  lemma OrderCommit(orders: map<Id, Order>, invoices: map<Id, Invoice>, tx: Tx, plan: Plan, c: Id)
    requires CreditTablesOk(orders, invoices) && SeenOk(orders, invoices, tx) && plan.OrderPlan? && PlanOk(tx, plan)
    ensures CreditTablesOk(OrdersAfter(orders, plan), invoices)
    ensures Exposure(OrdersAfter(orders, plan), invoices, c) <= Exposure(orders, invoices, c) + Rise(plan, c)
  {
    hide Exposure;
    var o, row := plan.order, plan.row;
    match row.status {
      case Draft => InertOrderWrite(orders, invoices, o, row, c);
      case Confirmed => ConfirmRaises(orders, invoices, o, row, c);
      case Shipped => ShipKeepsExposure(orders, invoices, o, row, c);
      case Cancelled => InertOrderWrite(orders, invoices, o, row, c);
    }
  }

  lemma InvoiceCommit(orders: map<Id, Order>, invoices: map<Id, Invoice>, tx: Tx, plan: Plan, c: Id)
    requires CreditTablesOk(orders, invoices) && SeenOk(orders, invoices, tx) && plan.InvoicePlan? && PlanOk(tx, plan)
    ensures CreditTablesOk(orders, InvoicesAfter(invoices, plan))
    ensures Exposure(orders, InvoicesAfter(invoices, plan), c) == Exposure(orders, invoices, c)
  {
    hide Exposure;
    var i, inv := plan.id, plan.invoice;
    if i in tx.invoices {
      VoidKeepsExposure(orders, invoices, i, c);
    } else {
      IssueKeepsExposure(orders, invoices, i, inv, c);
    }
  }

  lemma SettledTables(orders: map<Id, Order>, invoices: map<Id, Invoice>, targets: seq<Target>)
    requires CreditTablesOk(orders, invoices) && |TargetIds(targets)| == |targets|
    requires forall t :: t in targets ==>
               && t.amount > 0 && t.invoice in invoices && invoices[t.invoice].status != InvoiceVoid
               && invoices[t.invoice].settled + t.amount <= invoices[t.invoice].total
    ensures CreditTablesOk(orders, Settle(invoices, targets))
    ensures Settle(invoices, targets).Keys == invoices.Keys
  {
    var after := Settle(invoices, targets);
    if targets != [] {
      assert targets[0] in targets;
      SettleAt(invoices, targets, targets[0].invoice);
    }
    forall i | i in invoices
      ensures after[i].order == invoices[i].order && after[i].customer == invoices[i].customer
      ensures after[i].total == invoices[i].total
      ensures 0 <= after[i].settled <= after[i].total
      ensures after[i].status == InvoiceVoid <==> invoices[i].status == InvoiceVoid
    {
      SettledOne(invoices, targets, i);
    }
  }

  lemma SettledOne(invoices: map<Id, Invoice>, targets: seq<Target>, i: Id)
    requires i in invoices && |TargetIds(targets)| == |targets| && 0 <= invoices[i].settled <= invoices[i].total
    requires forall t :: t in targets ==>
               && t.amount > 0 && t.invoice in invoices && invoices[t.invoice].status != InvoiceVoid
               && invoices[t.invoice].settled + t.amount <= invoices[t.invoice].total
    ensures Settle(invoices, targets).Keys == invoices.Keys
    ensures var inv := Settle(invoices, targets)[i];
            && inv.order == invoices[i].order && inv.customer == invoices[i].customer && inv.total == invoices[i].total
            && 0 <= inv.settled <= inv.total
            && (inv.status == InvoiceVoid <==> invoices[i].status == InvoiceVoid)
  {
    SettleAt(invoices, targets, i);
    if i in TargetIds(targets) {
      var t :| t in targets && t.invoice == i;
      DistinctTargets(targets, t);
    } else {
      UntargetedIsZero(targets, i);
    }
  }

  lemma SettleCommit(orders: map<Id, Order>, invoices: map<Id, Invoice>, tx: Tx, plan: Plan, c: Id)
    requires CreditTablesOk(orders, invoices) && SeenOk(orders, invoices, tx) && plan.SettlePlan? && PlanOk(tx, plan)
    ensures CreditTablesOk(orders, InvoicesAfter(invoices, plan))
    ensures Exposure(orders, InvoicesAfter(invoices, plan), c) <= Exposure(orders, invoices, c)
  {
    hide Exposure, CreditTablesOk;
    SettledTables(orders, invoices, plan.targets);
    SettleLowersExposure(orders, invoices, plan.targets, c);
  }

  /** Whatever was committed in between, a decided plan raises a customer's exposure by
      no more than the confirmed total, and keeps the tables linked. */
  lemma PlanCommit(orders: map<Id, Order>, invoices: map<Id, Invoice>, tx: Tx, plan: Plan, c: Id)
    requires CreditTablesOk(orders, invoices) && SeenOk(orders, invoices, tx) && PlanOk(tx, plan)
    ensures CreditTablesOk(OrdersAfter(orders, plan), InvoicesAfter(invoices, plan))
    ensures Exposure(OrdersAfter(orders, plan), InvoicesAfter(invoices, plan), c) <=
              Exposure(orders, invoices, c) + Rise(plan, c)
  {
    hide Exposure, CreditTablesOk, SeenOk, PlanOk;
    match plan {
      case OrderPlan(_, _) => OrderCommit(orders, invoices, tx, plan, c);
      case InvoicePlan(_, _) => InvoiceCommit(orders, invoices, tx, plan, c);
      case SettlePlan(_) => SettleCommit(orders, invoices, tx, plan, c);
    }
  }

  // ---------------------------------------------------------------------------
  // What other transactions have seen survives a commit
  // ---------------------------------------------------------------------------

  lemma OrderWriteUnseen(orders: map<Id, Order>, invoices: map<Id, Invoice>, tx: Tx, plan: Plan, other: Tx)
    requires SeenOk(orders, invoices, tx) && SeenOk(orders, invoices, other) && tx.held !! other.held
    requires plan.OrderPlan? && PlanOk(tx, plan)
    ensures SeenOk(OrdersAfter(orders, plan), invoices, other)
  {
    var o := plan.order;
    assert o in orders ==> orders[o].status != Shipped;
    assert OrderRow(o) !in other.held;
  }

  lemma InvoiceWriteUnseen(orders: map<Id, Order>, invoices: map<Id, Invoice>, tx: Tx, plan: Plan, other: Tx)
    requires SeenOk(orders, invoices, tx) && SeenOk(orders, invoices, other) && tx.held !! other.held
    requires plan.InvoicePlan? && PlanOk(tx, plan)
    ensures SeenOk(orders, InvoicesAfter(invoices, plan), other)
  {
    var i, inv := plan.id, plan.invoice;
    assert InvoiceRow(i) !in other.held;
    forall o | LiveIndex(o) in other.held ensures !HasLiveInvoice(invoices[i := inv], o) {
      if inv.order != o { LiveElsewhere(invoices, i, inv, o); }
    }
  }

  lemma SettleWriteUnseen(orders: map<Id, Order>, invoices: map<Id, Invoice>, tx: Tx, plan: Plan, other: Tx)
    requires CreditTablesOk(orders, invoices)
    requires SeenOk(orders, invoices, tx) && SeenOk(orders, invoices, other) && tx.held !! other.held
    requires plan.SettlePlan? && PlanOk(tx, plan)
    ensures SeenOk(orders, InvoicesAfter(invoices, plan), other)
  {
    hide CreditTablesOk;
    var targets := plan.targets;
    var after := InvoicesAfter(invoices, plan);
    SettledTables(orders, invoices, targets);
    TablesAreBounded(orders, invoices);
    forall i | i in invoices
      ensures InvoiceRow(i) in other.held ==> after[i] == invoices[i]
      ensures after[i].order == invoices[i].order
      ensures after[i].status == InvoiceVoid <==> invoices[i].status == InvoiceVoid
    {
      SettledOne(invoices, targets, i);
      SettleAt(invoices, targets, i);
      if InvoiceRow(i) in other.held { UntargetedIsZero(targets, i); }
    }
  }

  lemma TablesAreBounded(orders: map<Id, Order>, invoices: map<Id, Invoice>)
    requires CreditTablesOk(orders, invoices)
    ensures forall i :: i in invoices ==> 0 <= invoices[i].settled <= invoices[i].total
  {
  }

  lemma SeenSurvives(orders: map<Id, Order>, invoices: map<Id, Invoice>, tx: Tx, plan: Plan, other: Tx)
    requires CreditTablesOk(orders, invoices)
    requires SeenOk(orders, invoices, tx) && SeenOk(orders, invoices, other) && tx.held !! other.held
    requires PlanOk(tx, plan)
    ensures SeenOk(OrdersAfter(orders, plan), InvoicesAfter(invoices, plan), other)
  {
    hide SeenOk, PlanOk, CreditTablesOk;
    match plan {
      case OrderPlan(_, _) => OrderWriteUnseen(orders, invoices, tx, plan, other);
      case InvoicePlan(_, _) => InvoiceWriteUnseen(orders, invoices, tx, plan, other);
      case SettlePlan(_) => SettleWriteUnseen(orders, invoices, tx, plan, other);
    }
  }

  // ---------------------------------------------------------------------------
  // Every step
  // ---------------------------------------------------------------------------

  /** Confirmations of one customer exclude each other from the check to the commit. */
  lemma RisesExclude(x: Tx, y: Tx, c: Id)
    requires x.plan.Some? && y.plan.Some? && x.held !! y.held
    requires PlanOk(x, x.plan.value) && PlanOk(y, y.plan.value)
    ensures Rise(x.plan.value, c) == 0 || Rise(y.plan.value, c) == 0
  {
  }

  lemma CommitStep(s: State, t: TxId, watched: set<Id>)
    requires Invariant(s, watched) && t in s.txs && s.txs[t].plan.Some?
    ensures Invariant(Next(s, Commit(t)), watched)
  {
    hide SeenOk, PlanOk, CreditTablesOk, Exposure, OrdersAfter, InvoicesAfter, Rise;
    var after := Next(s, Commit(t));
    var x := s.txs[t];
    var plan := x.plan.value;
    PlanCommit(s.orders, s.invoices, x, plan, 0);
    forall u | u in after.txs ensures SeenOk(after.orders, after.invoices, s.txs[u]) {
      SeenSurvives(s.orders, s.invoices, x, plan, s.txs[u]);
    }
    forall c | c in watched ensures Within(after, c, 0) {
      PlanCommit(s.orders, s.invoices, x, plan, c);
      assert StillFits(s, x, watched);
    }
    forall u | u in after.txs ensures StillFits(after, s.txs[u], watched) {
      CommitLeavesFit(s, t, u, watched);
    }
  }

  lemma CommitLeavesFit(s: State, t: TxId, u: TxId, watched: set<Id>)
    requires Invariant(s, watched) && t in s.txs && u in s.txs && t != u && s.txs[t].plan.Some?
    ensures StillFits(Next(s, Commit(t)), s.txs[u], watched)
  {
    hide SeenOk, PlanOk, CreditTablesOk, Exposure, OrdersAfter, InvoicesAfter, Rise;
    var x, y := s.txs[t], s.txs[u];
    assert StillFits(s, x, watched) && StillFits(s, y, watched);
    forall c | y.plan.Some? && c in watched ensures Within(Next(s, Commit(t)), c, Rise(y.plan.value, c)) {
      PlanCommit(s.orders, s.invoices, x, x.plan.value, c);
      RisesExclude(x, y, c);
    }
  }

  /** A decision is licensed by what was locked and seen. */
  lemma DecisionIsLicensed(s: State, tx: Tx, intent: Intent)
    requires CreditTablesOk(s.orders, s.invoices) && SeenOk(s.orders, s.invoices, tx) && Decision(s, tx, intent).Some?
    ensures PlanOk(tx, Decision(s, tx, intent).value)
  {
    hide Exposure, Repriced, ExactTotal, HasLiveInvoice, OneLiveInvoice;
  }

  /** A confirmation is decided only if it fits, rounding included. */
  lemma DecisionFits(s: State, tx: Tx, intent: Intent, watched: set<Id>)
    requires Decision(s, tx, intent).Some? && forall c :: c in watched ==> Within(s, c, 0)
    ensures StillFits(s, tx.(plan := Decision(s, tx, intent)), watched)
  {
    hide Exposure, Repriced, ExactTotal;
    var plan := Decision(s, tx, intent).value;
    forall c | c in watched ensures Within(s, c, Rise(plan, c)) {
      assert Within(s, c, 0);
      if plan.OrderPlan? && plan.row.status == Confirmed && plan.row.customer == c {
        var exact := PriceForConfirm(tx.orders, intent.order, s.terms.Keys, intent.catalog).value;
        CheckedTotalFits(s.terms[c].limit, s.terms[c].grace, Exposure(s.orders, s.invoices, c), exact);
      }
    }
  }

  /** Locking, claiming and reading give what is committed, and only free locks. */
  lemma AcquireStep(s: State, tx: Tx, a: Action)
    requires SeenOk(s.orders, s.invoices, tx) && !a.Decide? && TxNext(s, tx, a).Some?
    ensures var y := TxNext(s, tx, a).value;
            && SeenOk(s.orders, s.invoices, y) && y.plan == tx.plan
            && (forall l :: l in y.held ==> l in tx.held || Free(s, l))
  {
    hide HasLiveInvoice;
  }

  lemma TxStep(s: State, a: Action, watched: set<Id>)
    requires Invariant(s, watched)
    requires !a.Begin? && !a.Commit? && !a.Abort? && !a.SetTerms?
    ensures Invariant(Next(s, a), watched)
  {
    hide SeenOk, PlanOk, CreditTablesOk, Within, TxNext, Decision, Free, LocksApart, StillFits;
    if a.t in s.txs && s.txs[a.t].plan == None && TxNext(s, s.txs[a.t], a).Some? {
      var x := s.txs[a.t];
      var y := TxNext(s, x, a).value;
      TxNextIsOk(s, x, a, watched);
      var after := Next(s, a);
      assert after == s.(txs := s.txs[a.t := y]);
      WithinFrame(s, after);
      LocksStayApart(s, a.t, y);
      forall u | u in after.txs ensures StillFits(after, after.txs[u], watched) {
        FitFrame(s, after, after.txs[u], watched);
      }
    }
  }

  lemma LocksStayApart(s: State, t: TxId, y: Tx)
    requires LocksApart(s) && t in s.txs && forall l :: l in y.held ==> l in s.txs[t].held || Free(s, l)
    ensures LocksApart(s.(txs := s.txs[t := y]))
  {
  }

  lemma FitFrame(s: State, u: State, tx: Tx, watched: set<Id>)
    requires s.orders == u.orders && s.invoices == u.invoices && s.terms == u.terms && StillFits(s, tx, watched)
    ensures StillFits(u, tx, watched)
  {
    hide Exposure, Rise;
  }

  lemma WithinFrame(s: State, u: State)
    requires s.orders == u.orders && s.invoices == u.invoices && s.terms == u.terms
    ensures forall c, rise :: Within(s, c, rise) ==> Within(u, c, rise)
  {
  }

  lemma TxNextIsOk(s: State, x: Tx, a: Action, watched: set<Id>)
    requires CreditTablesOk(s.orders, s.invoices) && SeenOk(s.orders, s.invoices, x) && x.plan == None
    requires (forall c :: c in watched ==> Within(s, c, 0)) && TxNext(s, x, a).Some?
    ensures var y := TxNext(s, x, a).value;
            && SeenOk(s.orders, s.invoices, y) && (y.plan.Some? ==> PlanOk(y, y.plan.value))
            && StillFits(s, y, watched)
            && (forall l :: l in y.held ==> l in x.held || Free(s, l))
  {
    hide SeenOk, PlanOk, CreditTablesOk, Within, Decision, Free;
    match a {
      case Decide(_, intent) =>
        DecisionIsLicensed(s, x, intent);
        DecisionFits(s, x, intent, watched);
        PlanIsNotRead(s, x, Decision(s, x, intent));
      case _ => AcquireStep(s, x, a);
    }
  }

  lemma PlanIsNotRead(s: State, x: Tx, plan: Option<Plan>)
    requires SeenOk(s.orders, s.invoices, x)
    ensures SeenOk(s.orders, s.invoices, x.(plan := plan))
    ensures forall p :: PlanOk(x, p) ==> PlanOk(x.(plan := plan), p)
  {
  }

  lemma NewcomerIsOk(s: State, watched: set<Id>)
    ensures SeenOk(s.orders, s.invoices, NEWCOMER) && StillFits(s, NEWCOMER, watched)
  {
    hide HasLiveInvoice;
  }

  lemma BeginStep(s: State, t: TxId, watched: set<Id>)
    requires Invariant(s, watched)
    ensures Invariant(Next(s, Begin(t)), watched)
  {
    hide PlanOk, SeenOk, CreditTablesOk, Within;
    var after := Next(s, Begin(t));
    NewcomerIsOk(s, watched);
    WithinFrame(s, after);
    forall u | u in after.txs ensures StillFits(after, after.txs[u], watched) {
      assert u in s.txs ==> StillFits(s, s.txs[u], watched);
    }
  }

  lemma AbortStep(s: State, t: TxId, watched: set<Id>)
    requires Invariant(s, watched)
    ensures Invariant(Next(s, Abort(t)), watched)
  {
    hide PlanOk, SeenOk, CreditTablesOk, Within;
    var after := Next(s, Abort(t));
    WithinFrame(s, after);
    forall u | u in after.txs ensures StillFits(after, after.txs[u], watched) {
      assert StillFits(s, s.txs[u], watched);
    }
  }

  lemma TermsStep(s: State, c: Id, terms: Terms, watched: set<Id>)
    requires Invariant(s, watched)
    ensures Invariant(Next(s, SetTerms(c, terms)), watched)
  {
    hide PlanOk, SeenOk, CreditTablesOk, Exposure, Rise;
    var after := Next(s, SetTerms(c, terms));
    forall d, rise | Within(s, d, rise) ensures Within(after, d, rise) {}
    forall u | u in after.txs ensures StillFits(after, after.txs[u], watched) {
      assert StillFits(s, s.txs[u], watched);
    }
  }

  lemma StepKeeps(s: State, a: Action, watched: set<Id>)
    requires Invariant(s, watched)
    ensures Invariant(Next(s, a), watched)
  {
    hide Invariant;
    match a {
      case Commit(t) => if t in s.txs && s.txs[t].plan.Some? { CommitStep(s, t, watched); }
      case Begin(t) => BeginStep(s, t, watched);
      case Abort(t) => AbortStep(s, t, watched);
      case SetTerms(c, terms) => TermsStep(s, c, terms, watched);
      case _ => TxStep(s, a, watched);
    }
  }

  lemma {:induction false} RunKeeps(s: State, actions: seq<Action>, watched: set<Id>)
    requires Invariant(s, watched)
    ensures Invariant(Run(s, actions), watched)
    decreases |actions|
  {
    hide Invariant;
    if actions != [] {
      StepKeeps(s, actions[0], watched);
      RunKeeps(Next(s, actions[0]), actions[1..], watched);
    }
  }

  /** In every committed state of every interleaving, a customer with a nonzero limit that
      does not fall has an exposure within limit plus grace. */
  lemma ExposureNeverExceedsLimit(s: State, actions: seq<Action>, c: Id)
    requires CreditTablesOk(s.orders, s.invoices) && s.txs == map[] && Within(s, c, 0)
    ensures var now := Run(s, actions);
            && c in now.terms && now.terms[c].limit != 0
            && Exposure(now.orders, now.invoices, c) <= now.terms[c].limit + now.terms[c].grace
  {
    RunKeeps(s, actions, {c});
    assert Within(Run(s, actions), c, 0);
  }
}
