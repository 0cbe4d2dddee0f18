/** Deadlock freedom of the explicit locks. Transactions acquire the locks of their
    service one after the other, shared or exclusive, wait in arrival order, and keep them
    to the end. All services but the receipt with inline allocation acquire in one global
    order, all services but the void of an invoice in another; a deadlock needs both. */
module LockOrder {
  import opened Common
  import opened Sums

  type TxId = nat

  datatype Resource =
    | OrderRow(order: Id)
    | CustomerRow(customer: Id)
    | CompanyLock(company: Id)                      // the advisory lock
    | StockRow(company: Id, product: Id)
    | DocumentCounter(company: Id, year: nat, kind: nat)
    | PaymentRow(payment: Id)
    | InvoiceRow(invoice: Id)
    | PeriodRow(company: Id, month: nat)            // months counted from a fixed origin
    | LedgerCounter(company: Id, year: nat)
    | OrderCounter(company: Id, year: nat)
    | FreshPayment(payment: Id)                     // a payment row this transaction inserted

  datatype Request = Request(on: Resource, shared: bool)

  /** A transaction holds the locks of its program up to `pc`; `arrived` is when it began
      to wait for the next one. */
  datatype Tx = Tx(program: seq<Request>, pc: nat, arrived: Option<nat>)

  datatype State = State(txs: map<TxId, Tx>, clock: nat)

  // ---------------------------------------------------------------------------
  // Two global orders
  // ---------------------------------------------------------------------------

  datatype Rank = Rank(tier: nat, a: nat, b: nat, c: nat)

  /** The place of a resource in the order that has invoices before the period and the
      ledger counter, or (`late`) after them. */
  function RankOf(late: bool, r: Resource): Rank {
    match r
    case OrderCounter(c, y) => Rank(0, c, y, 0)
    case OrderRow(o) => Rank(1, o, 0, 0)
    case CustomerRow(c) => Rank(2, c, 0, 0)
    case CompanyLock(c) => Rank(3, c, 0, 0)
    case StockRow(c, p) => Rank(4, c, p, 0)
    case DocumentCounter(c, y, k) => Rank(5, c, y, k)
    case PaymentRow(p) => Rank(6, p, 0, 0)
    case InvoiceRow(i) => Rank(if late then 11 else 7, i, 0, 0)
    case PeriodRow(c, m) => Rank(8, c, m, 0)
    case LedgerCounter(c, y) => Rank(9, c, y, 0)
    case FreshPayment(p) => Rank(10, p, 0, 0)
  }

  predicate Below(x: Rank, y: Rank) {
    || x.tier < y.tier
    || (x.tier == y.tier && (x.a < y.a || (x.a == y.a && (x.b < y.b || (x.b == y.b && x.c < y.c)))))
  }

  predicate Ascends(late: bool, program: seq<Request>) {
    forall i, j :: 0 <= i < j < |program| ==> Below(RankOf(late, program[i].on), RankOf(late, program[j].on))
  }

  // ---------------------------------------------------------------------------
  // Waiting and granting
  // ---------------------------------------------------------------------------

  predicate Conflict(x: Request, y: Request) { x.on == y.on && !(x.shared && y.shared) }

  predicate Holds(tx: Tx, r: Request) {
    exists k :: 0 <= k < tx.pc && k < |tx.program| && Conflict(tx.program[k], r)
  }

  predicate Waiting(tx: Tx) { tx.arrived.Some? && tx.pc < |tx.program| }

  /** Nobody else holds the lock in a conflicting form, or waits for it from before. */
  predicate Grantable(s: State, t: TxId)
    requires t in s.txs && Waiting(s.txs[t])
  {
    var r := s.txs[t].program[s.txs[t].pc];
    forall u :: u in s.txs && u != t ==>
      && !Holds(s.txs[u], r)
      && !(Waiting(s.txs[u]) && Conflict(s.txs[u].program[s.txs[u].pc], r)
            && s.txs[u].arrived.value < s.txs[t].arrived.value)
  }

  /** It may finish, ask for its next lock, or be granted the one it waits for. */
  predicate CanProceed(s: State, t: TxId) {
    t in s.txs && (Waiting(s.txs[t]) ==> Grantable(s, t))
  }

  function Proceed(s: State, t: TxId): State {
    if !CanProceed(s, t) then s else
    var tx := s.txs[t];
    if tx.pc >= |tx.program| then State(s.txs - {t}, s.clock)
    else if tx.arrived == None then State(s.txs[t := tx.(arrived := Some(s.clock))], s.clock + 1)
    else State(s.txs[t := tx.(pc := tx.pc + 1, arrived := None)], s.clock)
  }

  function Run(s: State, schedule: seq<TxId>): State
    decreases |schedule|
  {
    if schedule == [] then s else Run(Proceed(s, schedule[0]), schedule[1..])
  }

  ghost predicate AllAscend(late: bool, s: State) {
    forall t :: t in s.txs ==> Ascends(late, s.txs[t].program)
  }

  // ---------------------------------------------------------------------------
  // Somebody can always proceed
  // ---------------------------------------------------------------------------

  /** Where a waiting transaction stands: the lock it wants, and since when. */
  datatype Place = Place(rank: Rank, arrived: nat)

  function PlaceOf(late: bool, tx: Tx): Place
    requires Waiting(tx)
  {
    Place(RankOf(late, tx.program[tx.pc].on), tx.arrived.value)
  }

  /** `x` wants a lower lock than `y`, or the same one later. */
  predicate Behind(x: Place, y: Place) {
    Below(x.rank, y.rank) || (x.rank == y.rank && y.arrived < x.arrived)
  }

  lemma BehindIsOrder(x: Place, y: Place, z: Place)
    ensures !Behind(x, x)
    ensures Behind(x, y) && Behind(y, z) ==> Behind(x, z)
  {
  }

  ghost predicate InFront(places: map<TxId, Place>, t: TxId) {
    t in places && forall u :: u in places ==> !Behind(places[t], places[u])
  }

  /** Of finitely many places one is behind no other. */
  lemma {:induction false} FrontExists(places: map<TxId, Place>)
    requires places != map[]
    ensures exists t :: InFront(places, t)
    decreases |places|
  {
    hide Behind;
    var p :| p in places;
    var rest := places - {p};
    BehindIsOrder(places[p], places[p], places[p]);
    assert forall u :: u in places ==> u == p || u in rest;
    if rest == map[] {
      assert InFront(places, p);
    } else {
      FrontExists(rest);
      var q :| InFront(rest, q);
      var front := if Behind(places[q], places[p]) then p else q;
      forall u | u in places ensures !Behind(places[front], places[u]) {
        if u != p { BehindIsOrder(places[q], places[p], places[u]); assert u in rest; }
      }
      assert InFront(places, front);
    }
  }

  /** Whoever holds a lock waits, if at all, for a higher one. */
  lemma HolderWantsMore(late: bool, x: Tx, y: Tx)
    requires Waiting(x) && Waiting(y) && Ascends(late, y.program)
    ensures Holds(y, x.program[x.pc]) ==> Behind(PlaceOf(late, x), PlaceOf(late, y))
  {
  }

  /** In every state of transactions that acquire in ascending order, however they got
      there, some transaction can proceed. */
  lemma NeverDeadlocked(late: bool, s: State)
    requires AllAscend(late, s) && s.txs != map[]
    ensures exists t :: CanProceed(s, t)
  {
    hide Behind;
    if t :| t in s.txs && !Waiting(s.txs[t]) {
      assert CanProceed(s, t);
    } else {
      var places := map t | t in s.txs :: PlaceOf(late, s.txs[t]);
      assert places.Keys == s.txs.Keys;
      FrontExists(places);
      var t :| InFront(places, t);
      FrontIsGranted(late, s, t, places);
      assert CanProceed(s, t);
    }
  }

  lemma FrontIsGranted(late: bool, s: State, t: TxId, places: map<TxId, Place>)
    requires AllAscend(late, s) && InFront(places, t) && places.Keys == s.txs.Keys
    requires forall u :: u in s.txs ==> Waiting(s.txs[u]) && places[u] == PlaceOf(late, s.txs[u])
    ensures Grantable(s, t)
  {
    var r := s.txs[t].program[s.txs[t].pc];
    forall u | u in s.txs && u != t
      ensures !Holds(s.txs[u], r)
      ensures !(Conflict(s.txs[u].program[s.txs[u].pc], r) && s.txs[u].arrived.value < s.txs[t].arrived.value)
    {
      HolderWantsMore(late, s.txs[t], s.txs[u]);
      assert !Behind(places[t], places[u]);
    }
  }

  lemma ProceedKeepsOrder(late: bool, s: State, t: TxId)
    requires AllAscend(late, s)
    ensures AllAscend(late, Proceed(s, t))
  {
  }

  /** What is left to do: each lock takes a request and a grant, then the end. */
  function Left(tx: Tx): int {
    if tx.pc >= |tx.program| then 1 else 2 * (|tx.program| - tx.pc) + if tx.arrived == None then 2 else 1
  }

  lemma ProceedGetsOn(s: State, t: TxId)
    requires CanProceed(s, t)
    ensures 0 <= SumBy(Proceed(s, t).txs, Left) < SumBy(s.txs, Left)
  {
    SumByNonNegative(Proceed(s, t).txs, Left);
    SumByRemove(s.txs, Left, t);
    var tx := s.txs[t];
    if tx.pc < |tx.program| { SumByUpdate(s.txs, Left, t, Proceed(s, t).txs[t]); }
  }

  /** From every such state some schedule lets every transaction finish. */
  lemma {:induction false} EverybodyCanFinish(late: bool, s: State)
    requires AllAscend(late, s)
    ensures exists schedule :: Run(s, schedule).txs == map[]
    decreases SumBy(s.txs, Left)
  {
    if s.txs == map[] {
      assert Run(s, []).txs == map[];
    } else {
      NeverDeadlocked(late, s);
      var t :| CanProceed(s, t);
      ProceedGetsOn(s, t);
      SumByNonNegative(s.txs, Left);
      ProceedKeepsOrder(late, s, t);
      EverybodyCanFinish(late, Proceed(s, t));
      var rest :| Run(Proceed(s, t), rest).txs == map[];
      assert ([t] + rest)[1..] == rest;
      assert Run(s, [t] + rest).txs == map[];
    }
  }

  // ---------------------------------------------------------------------------
  // What each service acquires, in program order
  // ---------------------------------------------------------------------------

  function Exclusive(r: Resource): Request { Request(r, false) }
  function Shared(r: Resource): Request { Request(r, true) }

  function StockRows(company: Id, products: seq<Id>): seq<Request> {
    seq(|products|, i requires 0 <= i < |products| => Exclusive(StockRow(company, products[i])))
  }

  function InvoiceRows(invoices: seq<Id>): seq<Request> {
    seq(|invoices|, i requires 0 <= i < |invoices| => Exclusive(InvoiceRow(invoices[i])))
  }

  function PaymentRows(payments: seq<Id>): seq<Request> {
    seq(|payments|, i requires 0 <= i < |payments| => Exclusive(PaymentRow(payments[i])))
  }

  /** Posting an entry: the period row for share, then the counter of the year. */
  function Posting(company: Id, month: nat, year: nat): seq<Request> {
    [Shared(PeriodRow(company, month)), Exclusive(LedgerCounter(company, year))]
  }

  datatype Service =
    | CreateOrder(company: Id, year: nat)
    | EditOrder(order: Id)
    | ConfirmOrder(order: Id, customer: Id)
    | Shipment(order: Id, company: Id, products: set<Id>, month: nat, year: nat)
    | Redelivery(company: Id, products: set<Id>, month: nat, year: nat)
    | Adjustment(company: Id, product: Id)
    | StockRebuild(company: Id, products: set<Id>)
    | IssueInvoice(company: Id, docYear: nat, month: nat, year: nat)
    | VoidInvoice(invoice: Id, company: Id, month: nat, year: nat)
    | ReceivePayment(company: Id, docYear: nat, month: nat, year: nat)
    | VoidPayment(payment: Id, company: Id, month: nat, year: nat)
    | LateAllocation(payment: Id, invoices: set<Id>)
    | ArRebuild(payments: set<Id>, invoices: set<Id>)
    | ManualEntry(company: Id, month: nat, year: nat)
    | ClosePeriod(company: Id, month: nat)
    | InlineReceipt(company: Id, docYear: nat, month: nat, year: nat, payment: Id, invoices: set<Id>)

  const INVOICE_DOC := 0
  const PAYMENT_DOC := 1

  function Program(v: Service): seq<Request> {
    match v
    case CreateOrder(c, y) => [Exclusive(OrderCounter(c, y))]
    case EditOrder(o) => [Exclusive(OrderRow(o))]
    case ConfirmOrder(o, c) => [Exclusive(OrderRow(o)), Exclusive(CustomerRow(c))]
    case Shipment(o, c, products, m, y) =>
      [Exclusive(OrderRow(o)), Shared(CompanyLock(c))] + StockRows(c, Ascending(products)) + Posting(c, m, y)
    case Redelivery(c, products, m, y) =>
      [Shared(CompanyLock(c))] + StockRows(c, Ascending(products)) + Posting(c, m, y)
    case Adjustment(c, p) => [Shared(CompanyLock(c)), Exclusive(StockRow(c, p))]
    case StockRebuild(c, products) => [Exclusive(CompanyLock(c))] + StockRows(c, Ascending(products))
    case IssueInvoice(c, d, m, y) => [Exclusive(DocumentCounter(c, d, INVOICE_DOC))] + Posting(c, m, y)
    case VoidInvoice(i, c, m, y) => [Exclusive(InvoiceRow(i))] + Posting(c, m, y)
    case ReceivePayment(c, d, m, y) => [Exclusive(DocumentCounter(c, d, PAYMENT_DOC))] + Posting(c, m, y)
    case VoidPayment(p, c, m, y) => [Exclusive(PaymentRow(p))] + Posting(c, m, y)
    case LateAllocation(p, invoices) => [Exclusive(PaymentRow(p))] + InvoiceRows(Ascending(invoices))
    case ArRebuild(payments, invoices) => PaymentRows(Ascending(payments)) + InvoiceRows(Ascending(invoices))
    case ManualEntry(c, m, y) => Posting(c, m, y)
    case ClosePeriod(c, m) => [Exclusive(PeriodRow(c, m))]
    case InlineReceipt(c, d, m, y, p, invoices) =>
      [Exclusive(DocumentCounter(c, d, PAYMENT_DOC))] + Posting(c, m, y) + [Exclusive(FreshPayment(p))]
        + InvoiceRows(Ascending(invoices))
  }

  /** `x` is `y` with some requests left out: a call that aborts early, ships at no cost,
      or gives locks back at a savepoint. */
  ghost predicate Part(x: seq<Request>, y: seq<Request>)
    decreases |y|
  {
    x == [] || (y != [] && (Part(x, y[1..]) || (x[0] == y[0] && Part(x[1..], y[1..]))))
  }

  lemma {:induction false} PartAscends(late: bool, x: seq<Request>, y: seq<Request>)
    requires Part(x, y) && Ascends(late, y)
    ensures Ascends(late, x) && forall r :: r in x ==> r in y
    decreases |y|
  {
    if x != [] {
      assert Ascends(late, y[1..]);
      if Part(x, y[1..]) {
        PartAscends(late, x, y[1..]);
      } else {
        PartAscends(late, x[1..], y[1..]);
        FirstIsBelow(late, y);
        assert x == [y[0]] + x[1..];
      }
    }
  }

  lemma FirstIsBelow(late: bool, y: seq<Request>)
    requires y != [] && Ascends(late, y)
    ensures forall r :: r in y[1..] ==> Below(RankOf(late, y[0].on), RankOf(late, r.on))
  {
    forall r | r in y[1..] ensures Below(RankOf(late, y[0].on), RankOf(late, r.on)) {
      var k :| 0 <= k < |y[1..]| && y[1..][k] == r;
      assert y[k + 1] == r;
    }
  }

  /** In particular a prefix, and the whole program. */
  lemma {:induction false} PrefixIsPart(y: seq<Request>, n: nat)
    requires n <= |y|
    ensures Part(y[..n], y)
    decreases |y|
  {
    if n > 0 {
      PrefixIsPart(y[1..], n - 1);
      assert y[..n][1..] == y[1..][..n - 1];
    }
  }

  ghost predicate TiersWithin(late: bool, program: seq<Request>, lo: nat, hi: nat) {
    forall i :: 0 <= i < |program| ==> lo <= RankOf(late, program[i].on).tier <= hi
  }

  /** Programs over disjoint, ordered tiers may be put one after the other. */
  lemma AscendsConcat(late: bool, x: seq<Request>, y: seq<Request>, mid: nat, hi: nat)
    requires Ascends(late, x) && Ascends(late, y)
    requires TiersWithin(late, x, 0, mid) && TiersWithin(late, y, mid + 1, hi) && mid <= hi
    ensures Ascends(late, x + y) && TiersWithin(late, x + y, 0, hi)
  {
    forall i, j | 0 <= i < j < |x + y| ensures Below(RankOf(late, (x + y)[i].on), RankOf(late, (x + y)[j].on)) {
      if j >= |x| && i >= |x| { assert (x + y)[i] == y[i - |x|] && (x + y)[j] == y[j - |x|]; }
    }
  }

  ghost predicate StrictlyUp(q: seq<Id>) {
    forall i, j :: 0 <= i < j < |q| ==> q[i] < q[j]
  }

  /** Listing rows of one kind in the order of their ids ascends, within the kind's tier. */
  lemma StockRowsAscend(late: bool, company: Id, q: seq<Id>)
    requires StrictlyUp(q)
    ensures Ascends(late, StockRows(company, q)) && TiersWithin(late, StockRows(company, q), 4, 4)
  {
  }

  lemma PaymentRowsAscend(late: bool, q: seq<Id>)
    requires StrictlyUp(q)
    ensures Ascends(late, PaymentRows(q)) && TiersWithin(late, PaymentRows(q), 0, 6)
  {
  }

  lemma InvoiceRowsAscend(late: bool, q: seq<Id>)
    requires StrictlyUp(q)
    ensures Ascends(late, InvoiceRows(q))
  {
    var rows := InvoiceRows(q);
    forall i, j | 0 <= i < j < |rows| ensures Below(RankOf(late, rows[i].on), RankOf(late, rows[j].on)) {
      assert q[i] < q[j];
    }
  }

  lemma InvoiceTiers(late: bool, q: seq<Id>)
    ensures TiersWithin(late, InvoiceRows(q), 7, 11)
    ensures late ==> TiersWithin(late, InvoiceRows(q), 11, 11)
  {
  }

  lemma AscendingIsUp(ids: set<Id>)
    ensures StrictlyUp(Ascending(ids))
  {
  }

  lemma ShipmentAscends(late: bool, head: seq<Request>, c: Id, products: set<Id>, m: nat, y: nat)
    requires Ascends(late, head) && TiersWithin(late, head, 0, 3)
    ensures Ascends(late, head + StockRows(c, Ascending(products)))
    ensures Ascends(late, head + StockRows(c, Ascending(products)) + Posting(c, m, y))
  {
    hide Ascends, Below;
    AscendingIsUp(products);
    StockRowsAscend(late, c, Ascending(products));
    AscendsConcat(late, head, StockRows(c, Ascending(products)), 3, 4);
    ShortAscends(late, Posting(c, m, y));
    AscendsConcat(late, head + StockRows(c, Ascending(products)), Posting(c, m, y), 4, 9);
  }

  lemma AllocationAscends(late: bool, p: Id, payments: set<Id>, invoices: set<Id>)
    ensures Ascends(late, [Exclusive(PaymentRow(p))] + InvoiceRows(Ascending(invoices)))
    ensures Ascends(late, PaymentRows(Ascending(payments)) + InvoiceRows(Ascending(invoices)))
  {
    hide Ascends, Below;
    ShortAscends(late, [Exclusive(PaymentRow(p))]);
    AscendingIsUp(payments);
    PaymentRowsAscend(late, Ascending(payments));
    AscendingIsUp(invoices);
    InvoiceRowsAscend(late, Ascending(invoices));
    InvoiceTiers(late, Ascending(invoices));
    AscendsConcat(late, [Exclusive(PaymentRow(p))], InvoiceRows(Ascending(invoices)), 6, 11);
    AscendsConcat(late, PaymentRows(Ascending(payments)), InvoiceRows(Ascending(invoices)), 6, 11);
  }

  lemma ReceiptAscends(c: Id, d: nat, m: nat, y: nat, p: Id, invoices: set<Id>)
    ensures Ascends(true, Program(InlineReceipt(c, d, m, y, p, invoices)))
  {
    hide Ascends, Below;
    var head := [Exclusive(DocumentCounter(c, d, PAYMENT_DOC))] + Posting(c, m, y) + [Exclusive(FreshPayment(p))];
    ShortAscends(true, head);
    AscendingIsUp(invoices);
    InvoiceRowsAscend(true, Ascending(invoices));
    InvoiceTiers(true, Ascending(invoices));
    AscendsConcat(true, head, InvoiceRows(Ascending(invoices)), 10, 11);
  }

  /** Every service acquires in one of the two global orders: all but inline receipts in the
      early one, all but invoice voids in the late one. */
  lemma ServicesAscend(late: bool, v: Service)
    requires if late then !v.VoidInvoice? else !v.InlineReceipt?
    ensures Ascends(late, Program(v))
  {
    hide Ascends, Below, StockRows, InvoiceRows, PaymentRows, RankOf;
    match v {
      case Shipment(o, c, products, m, y) =>
        HeadsAscend(late, o, c);
        ShipmentAscends(late, [Exclusive(OrderRow(o)), Shared(CompanyLock(c))], c, products, m, y);
      case Redelivery(c, products, m, y) =>
        HeadsAscend(late, 0, c);
        ShipmentAscends(late, [Shared(CompanyLock(c))], c, products, m, y);
      case StockRebuild(c, products) =>
        HeadsAscend(late, 0, c);
        ShipmentAscends(late, [Exclusive(CompanyLock(c))], c, products, 0, 0);
      case LateAllocation(p, invoices) => AllocationAscends(late, p, {}, invoices);
      case ArRebuild(payments, invoices) => AllocationAscends(late, 0, payments, invoices);
      case InlineReceipt(c, d, m, y, p, invoices) => ReceiptAscends(c, d, m, y, p, invoices);
      case VoidInvoice(i, c, m, y) => VoidAscends(i, c, m, y);
      case _ => OneStageAscends(late, v);
    }
  }

  lemma HeadsAscend(late: bool, o: Id, c: Id)
    ensures var head := [Exclusive(OrderRow(o)), Shared(CompanyLock(c))];
            Ascends(late, head) && TiersWithin(late, head, 0, 3)
    ensures Ascends(late, [Shared(CompanyLock(c))]) && TiersWithin(late, [Shared(CompanyLock(c))], 0, 3)
    ensures Ascends(late, [Exclusive(CompanyLock(c))]) && TiersWithin(late, [Exclusive(CompanyLock(c))], 0, 3)
  {
  }

  lemma VoidAscends(i: Id, c: Id, m: nat, y: nat)
    ensures Ascends(false, [Exclusive(InvoiceRow(i))] + Posting(c, m, y))
  {
    ShortAscends(false, [Exclusive(InvoiceRow(i))] + Posting(c, m, y));
  }

  /** Services whose program is the same few locks whatever they work on. */
  lemma OneStageAscends(late: bool, v: Service)
    requires !v.Shipment? && !v.Redelivery? && !v.StockRebuild? && !v.LateAllocation? && !v.ArRebuild?
    requires !v.InlineReceipt? && !v.VoidInvoice?
    ensures Ascends(late, Program(v))
  {
    hide Ascends;
    ShortAscends(late, Program(v));
  }

  /** Up to four locks of ascending tiers. */
  lemma ShortAscends(late: bool, p: seq<Request>)
    requires |p| <= 4
    requires forall k :: 0 < k < |p| ==> RankOf(late, p[k - 1].on).tier < RankOf(late, p[k].on).tier
    ensures Ascends(late, p)
  {
    assert |p| >= 2 ==> RankOf(late, p[0].on).tier < RankOf(late, p[1].on).tier;
    assert |p| >= 3 ==> RankOf(late, p[1].on).tier < RankOf(late, p[2].on).tier;
    assert |p| >= 4 ==> RankOf(late, p[2].on).tier < RankOf(late, p[3].on).tier;
  }

  /** Any set of running services in which no invoice is voided, or none is settled inline,
      at any point of any execution, aborted and cut-short calls included, has a
      transaction able to proceed, and a schedule on which all of them finish. */
  lemma ServicesNeverDeadlock(s: State, kind: map<TxId, Service>)
    requires s.txs != map[] && forall t :: t in s.txs ==> t in kind && Part(s.txs[t].program, Program(kind[t]))
    requires (forall t :: t in s.txs ==> !kind[t].InlineReceipt?) || (forall t :: t in s.txs ==> !kind[t].VoidInvoice?)
    ensures exists t :: CanProceed(s, t)
    ensures exists schedule :: Run(s, schedule).txs == map[]
  {
    hide Program, Ascends, Part;
    var late := exists t :: t in s.txs && kind[t].InlineReceipt?;
    forall t | t in s.txs ensures Ascends(late, s.txs[t].program) {
      ServicesAscend(late, kind[t]);
      PartAscends(late, s.txs[t].program, Program(kind[t]));
    }
    NeverDeadlocked(late, s);
    EverybodyCanFinish(late, s);
  }

  // ---------------------------------------------------------------------------
  // An inline receipt beside one other service
  // ---------------------------------------------------------------------------

  /** Every transaction waits for a lock that is not granted. */
  ghost predicate Deadlocked(s: State) {
    s.txs != map[] && forall t :: t in s.txs ==> !CanProceed(s, t)
  }

  lemma {:induction false} RunConcat(s: State, x: seq<TxId>, y: seq<TxId>)
    ensures Run(s, x + y) == Run(Run(s, x), y)
    decreases |x|
  {
    if x == [] {
      assert x + y == y;
    } else {
      assert (x + y)[1..] == x[1..] + y;
      RunConcat(Proceed(s, x[0]), x[1..], y);
    }
  }

  /** A receipt with inline allocation next to a void of the invoice it allocates to. */
  function Pair(x: seq<Request>, y: seq<Request>, i: nat, j: nat, clock: nat): State {
    State(map[0 := Tx(x, i, None), 1 := Tx(y, j, None)], clock)
  }

  /** Asking for a lock, and being granted it when the other one does not hold it. */
  lemma ReceiptGets(x: seq<Request>, y: seq<Request>, i: nat, j: nat, clock: nat)
    requires i < |x| && !Holds(Tx(y, j, None), x[i])
    ensures Run(Pair(x, y, i, j, clock), [0, 0]) == Pair(x, y, i + 1, j, clock + 1)
  {
    var s := Pair(x, y, i, j, clock);
    var asked := Proceed(s, 0);
    assert [0, 0][1..] == [0] && [0][1..] == [];
    assert CanProceed(asked, 0);
    assert Proceed(asked, 0).txs == Pair(x, y, i + 1, j, clock + 1).txs;
    assert Run(s, [0, 0]) == Run(asked, [0]) == Run(Proceed(asked, 0), []);
  }

  lemma VoidGets(x: seq<Request>, y: seq<Request>, i: nat, j: nat, clock: nat)
    requires j < |y| && !Holds(Tx(x, i, None), y[j])
    ensures Run(Pair(x, y, i, j, clock), [1, 1]) == Pair(x, y, i, j + 1, clock + 1)
  {
    var s := Pair(x, y, i, j, clock);
    var asked := Proceed(s, 1);
    assert [1, 1][1..] == [1] && [1][1..] == [];
    assert CanProceed(asked, 1);
    assert Proceed(asked, 1).txs == Pair(x, y, i, j + 1, clock + 1).txs;
    assert Run(s, [1, 1]) == Run(asked, [1]) == Run(Proceed(asked, 1), []);
  }

  lemma BothAsk(x: seq<Request>, y: seq<Request>, i: nat, j: nat, clock: nat)
    requires i < |x| && j < |y| && Holds(Tx(y, j, None), x[i]) && Holds(Tx(x, i, None), y[j])
    ensures Deadlocked(Run(Pair(x, y, i, j, clock), [0, 1]))
  {
    var s := Pair(x, y, i, j, clock);
    assert [0, 1][1..] == [1] && [1][1..] == [];
    var first := Proceed(s, 0);
    var last := Proceed(first, 1);
    assert Run(s, [0, 1]) == Run(first, [1]) == Run(last, []) == last;
    assert last.txs == map[0 := Tx(x, i, Some(clock)), 1 := Tx(y, j, Some(clock + 1))];
    assert Holds(last.txs[1], x[i]) && Holds(last.txs[0], y[j]);
    assert !CanProceed(last, 0) && !CanProceed(last, 1);
  }

  lemma {:induction false} RunKeepsOrder(late: bool, s: State, schedule: seq<TxId>)
    requires AllAscend(late, s)
    ensures AllAscend(late, Run(s, schedule))
    decreases |schedule|
  {
    if schedule != [] {
      ProceedKeepsOrder(late, s, schedule[0]);
      RunKeepsOrder(late, Proceed(s, schedule[0]), schedule[1..]);
    }
  }

  /** Only transactions 0 and 1 run, with these programs. */
  ghost predicate TwoOf(s: State, x: seq<Request>, y: seq<Request>) {
    && s.txs.Keys <= {0, 1}
    && (0 in s.txs ==> s.txs[0].program == x) && (1 in s.txs ==> s.txs[1].program == y)
  }

  lemma ProceedKeepsTwo(s: State, x: seq<Request>, y: seq<Request>, t: TxId)
    requires TwoOf(s, x, y)
    ensures TwoOf(Proceed(s, t), x, y)
  {
    hide Grantable;
  }

  lemma {:induction false} RunKeepsTwo(s: State, x: seq<Request>, y: seq<Request>, schedule: seq<TxId>)
    requires TwoOf(s, x, y)
    ensures TwoOf(Run(s, schedule), x, y)
    decreases |schedule|
  {
    hide TwoOf, Proceed;
    if schedule != [] {
      ProceedKeepsTwo(s, x, y, schedule[0]);
      RunKeepsTwo(Proceed(s, schedule[0]), x, y, schedule[1..]);
    }
  }

  predicate Distinct(p: seq<Request>) {
    forall i, j :: 0 <= i < j < |p| ==> p[i].on != p[j].on
  }

  /** Each has acquired something before something of the other's that conflicts. */
  ghost predicate Crossing(x: seq<Request>, y: seq<Request>) {
    exists a, b, e, f ::
      0 <= a < b < |x| && 0 <= e < f < |y| && Conflict(x[a], y[f]) && Conflict(y[e], x[b])
  }

  /** Two transactions deadlock only where their programs cross. */
  lemma DeadlockCrosses(s: State, x: seq<Request>, y: seq<Request>)
    requires TwoOf(s, x, y) && Distinct(x) && Distinct(y) && Deadlocked(s)
    ensures Crossing(x, y)
  {
    hide CanProceed, Distinct, Conflict;
    BothAreThere(s);
    BlockedByEachOther(s, x, y);
  }

  lemma BothAreThere(s: State)
    requires s.txs.Keys <= {0, 1} && Deadlocked(s)
    ensures s.txs.Keys == {0, 1} && !CanProceed(s, 0) && !CanProceed(s, 1)
  {
    hide CanProceed;
    if s.txs.Keys == {0} { AloneProceeds(s, 0); }
    if s.txs.Keys == {1} { AloneProceeds(s, 1); }
    assert s.txs.Keys != {};
    assert 0 in s.txs.Keys || s.txs.Keys == {1};
    assert 1 in s.txs.Keys || s.txs.Keys == {0};
  }

  lemma AloneProceeds(s: State, t: TxId)
    requires s.txs.Keys == {t}
    ensures t in s.txs && CanProceed(s, t)
  {
    assert forall u :: u in s.txs ==> u in s.txs.Keys;
  }

  lemma BlockedByEachOther(s: State, x: seq<Request>, y: seq<Request>)
    requires s.txs.Keys == {0, 1} && TwoOf(s, x, y) && Distinct(x) && Distinct(y)
    requires !CanProceed(s, 0) && !CanProceed(s, 1)
    ensures Waiting(s.txs[0]) && Waiting(s.txs[1])
    ensures Holds(s.txs[0], y[s.txs[1].pc]) && Holds(s.txs[1], x[s.txs[0].pc])
  {
  }

  lemma AscendsIsDistinct(late: bool, p: seq<Request>)
    requires Ascends(late, p)
    ensures Distinct(p)
  {
  }

  function Receipt(c: Id, d: nat, m: nat, y: nat, p: Id, invoices: set<Id>): seq<Request> {
    Program(InlineReceipt(c, d, m, y, p, invoices))
  }

  function VoidOf(i: Id, c: Id, m: nat, y: nat): seq<Request> {
    Program(VoidInvoice(i, c, m, y))
  }

  /** Where the receipt's invoices, its counter and its period are. */
  lemma ReceiptAt(c: Id, d: nat, m: nat, y: nat, p: Id, invoices: set<Id>)
    ensures var x := Receipt(c, d, m, y, p, invoices);
            && |x| == 4 + |Ascending(invoices)|
            && x[0].on.DocumentCounter? && x[1] == Shared(PeriodRow(c, m)) && x[2] == Exclusive(LedgerCounter(c, y))
            && x[3].on.FreshPayment?
            && forall k :: 4 <= k < |x| ==> x[k] == Exclusive(InvoiceRow(Ascending(invoices)[k - 4]))
  {
  }

  lemma VoidAt(i: Id, c: Id, m: nat, y: nat)
    ensures VoidOf(i, c, m, y) ==
              [Exclusive(InvoiceRow(i)), Shared(PeriodRow(c, m)), Exclusive(LedgerCounter(c, y))]
  {
  }

  /** The programs of a receipt and a void cross only at the void's invoice and counter. */
  lemma CrossingNeedsBoth(c: Id, d: nat, m: nat, y: nat, p: Id, invoices: set<Id>, i: Id, c': Id, m': nat, y': nat)
    requires Crossing(Receipt(c, d, m, y, p, invoices), VoidOf(i, c', m', y'))
    ensures i in invoices && c' == c && y' == y
  {
    hide Program, Receipt, VoidOf;
    var x, z := Receipt(c, d, m, y, p, invoices), VoidOf(i, c', m', y');
    VoidAt(i, c', m', y');
    var a, b, e, f :| 0 <= a < b < |x| && 0 <= e < f < |z| && Conflict(x[a], z[f]) && Conflict(z[e], x[b]);
    OnlySharedPeriods(c, d, m, y, p, invoices, a);
    OnlySharedPeriods(c, d, m, y, p, invoices, b);
    assert z[e] == z[0] && z[f] == z[2];
  }

  /** What one request of a receipt can be. */
  lemma OnlySharedPeriods(c: Id, d: nat, m: nat, y: nat, p: Id, invoices: set<Id>, k: nat)
    requires k < |Receipt(c, d, m, y, p, invoices)|
    ensures var r := Receipt(c, d, m, y, p, invoices)[k];
            && (r.on.PeriodRow? ==> r.shared)
            && (r.on.LedgerCounter? ==> r.on == LedgerCounter(c, y))
            && (r.on.InvoiceRow? ==> r.on.invoice in invoices)
  {
    hide Program, Receipt;
    ReceiptAt(c, d, m, y, p, invoices);
    if k >= 4 { assert Ascending(invoices)[k - 4] in Ascending(invoices); }
  }

  function Zeros(n: nat): seq<TxId> {
    if n == 0 then [] else Zeros(n - 1) + [0, 0]
  }

  /** The receipt gets every lock up to the `n`th while the void holds its first two. */
  lemma {:induction false} ReceiptGetsUpTo(x: seq<Request>, y: seq<Request>, n: nat)
    requires n <= |x| && forall k :: 0 <= k < n ==> !Holds(Tx(y, 2, None), x[k])
    ensures Run(Pair(x, y, 0, 2, 2), Zeros(n)) == Pair(x, y, n, 2, n + 2)
  {
    hide Holds;
    if n > 0 {
      ReceiptGetsUpTo(x, y, n - 1);
      RunConcat(Pair(x, y, 0, 2, 2), Zeros(n - 1), [0, 0]);
      ReceiptGets(x, y, n - 1, 2, n + 1);
    }
  }

  /** An inline receipt and a void of one of its invoices under the same ledger counter have
      a schedule on which they block each other: the void holds the invoice and waits for
      the counter, the receipt holds the counter and waits for the invoice. */
  lemma ReceiptAndVoidDeadlock(c: Id, d: nat, m: nat, y: nat, p: Id, invoices: set<Id>, i: Id, m': nat)
    requires i in invoices
    ensures var start := Pair(Receipt(c, d, m, y, p, invoices), VoidOf(i, c, m', y), 0, 0, 0);
            exists schedule :: Deadlocked(Run(start, schedule))
  {
    hide Run, Deadlocked, Program, Holds, Receipt, VoidOf;
    var x, z := Receipt(c, d, m, y, p, invoices), VoidOf(i, c, m', y);
    var k := ReceiptReaches(c, d, m, y, p, invoices, i, m');
    VoidGets(x, z, 0, 0, 0);
    VoidGets(x, z, 0, 1, 1);
    ReceiptGetsUpTo(x, z, k);
    BothAsk(x, z, k, 2, k + 2);
    var start := Pair(x, z, 0, 0, 0);
    RunConcat(start, [1, 1], [1, 1]);
    RunConcat(start, [1, 1] + [1, 1], Zeros(k));
    RunConcat(start, [1, 1] + [1, 1] + Zeros(k), [0, 1]);
    assert Deadlocked(Run(start, [1, 1] + [1, 1] + Zeros(k) + [0, 1]));
  }

  /** Nothing is in the receipt's way until it asks for the voided invoice. */
  lemma ReceiptReaches(c: Id, d: nat, m: nat, y: nat, p: Id, invoices: set<Id>, i: Id, m': nat) returns (k: nat)
    requires i in invoices
    ensures var x, z := Receipt(c, d, m, y, p, invoices), VoidOf(i, c, m', y);
            && k < |x| && |z| == 3
            && (forall n :: 0 <= n < k ==> !Holds(Tx(z, 2, None), x[n]))
            && !Holds(Tx(x, 0, None), z[0]) && !Holds(Tx(x, 0, None), z[1])
            && Holds(Tx(z, 2, None), x[k]) && Holds(Tx(x, k, None), z[2])
  {
    hide Program;
    var x, z := Receipt(c, d, m, y, p, invoices), VoidOf(i, c, m', y);
    ReceiptAt(c, d, m, y, p, invoices);
    VoidAt(i, c, m', y);
    var n :| 0 <= n < |Ascending(invoices)| && Ascending(invoices)[n] == i;
    k := 4 + n;
    assert Conflict(z[0], x[k]) && Conflict(x[2], z[2]);
  }

  /** The smallest case: one invoice, voided in the month of the receipt. */
  lemma InlineReceiptCanDeadlock(c: Id, d: nat, m: nat, y: nat, p: Id, i: Id)
    ensures var start := Pair(Receipt(c, d, m, y, p, {i}), VoidOf(i, c, m, y), 0, 0, 0);
            exists schedule :: Deadlocked(Run(start, schedule))
  {
    ReceiptAndVoidDeadlock(c, d, m, y, p, {i}, i, m);
  }

  lemma NoDeadlockInOrder(late: bool, s: State, schedule: seq<TxId>)
    requires AllAscend(late, s)
    ensures !Deadlocked(Run(s, schedule))
  {
    RunKeepsOrder(late, s, schedule);
    if Run(s, schedule).txs != map[] { NeverDeadlocked(late, Run(s, schedule)); }
  }

  lemma OtherVoidsAreSafe(c: Id, d: nat, m: nat, y: nat, p: Id, invoices: set<Id>, v: Service, schedule: seq<TxId>)
    requires v.VoidInvoice? && !(v.invoice in invoices && v.company == c && v.year == y)
    ensures !Deadlocked(Run(Pair(Receipt(c, d, m, y, p, invoices), Program(v), 0, 0, 0), schedule))
  {
    hide Run, Deadlocked, Program, Crossing, Ascends, Distinct;
    var x, z := Receipt(c, d, m, y, p, invoices), Program(v);
    ReceiptAscends(c, d, m, y, p, invoices);
    AscendsIsDistinct(true, x);
    ServicesAscend(false, v);
    AscendsIsDistinct(false, z);
    RunKeepsTwo(Pair(x, z, 0, 0, 0), x, z, schedule);
    if Crossing(x, z) { CrossingNeedsBoth(c, d, m, y, p, invoices, v.invoice, v.company, v.month, v.year); }
    if Deadlocked(Run(Pair(x, z, 0, 0, 0), schedule)) { DeadlockCrosses(Run(Pair(x, z, 0, 0, 0), schedule), x, z); }
  }

  /** An inline receipt and one other service can deadlock iff the other voids one of the
      receipt's invoices under the same ledger counter. */
  lemma InlinePairDeadlocksIff(c: Id, d: nat, m: nat, y: nat, p: Id, invoices: set<Id>, v: Service)
    ensures var start := Pair(Receipt(c, d, m, y, p, invoices), Program(v), 0, 0, 0);
            (exists schedule :: Deadlocked(Run(start, schedule))) <==>
              v.VoidInvoice? && v.invoice in invoices && v.company == c && v.year == y
  {
    hide Run, Deadlocked, Program, Ascends;
    var start := Pair(Receipt(c, d, m, y, p, invoices), Program(v), 0, 0, 0);
    if v.VoidInvoice? && v.invoice in invoices && v.company == c && v.year == y {
      ReceiptAndVoidDeadlock(c, d, m, y, p, invoices, v.invoice, v.month);
    } else {
      forall schedule ensures !Deadlocked(Run(start, schedule)) {
        if v.VoidInvoice? {
          OtherVoidsAreSafe(c, d, m, y, p, invoices, v, schedule);
        } else {
          ReceiptAscends(c, d, m, y, p, invoices);
          ServicesAscend(true, v);
          NoDeadlockInOrder(true, start, schedule);
        }
      }
    }
  }
}
