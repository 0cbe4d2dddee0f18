/** The order-to-cash kernel of one company: every service call as one transaction over
    the shared tables, and what every run of such transactions keeps. */
module Kernel {
  import opened Common
  import opened Decimals
  import opened Ledger
  import opened Posting
  import opened Inventory
  import opened Fingerprint
  import opened Receivables
  import opened Sales
  import opened Credit

  datatype Tables = Tables(books: Books, stock: Stock, ar: Ar, orders: map<Id, Order>, outbox: seq<Event>)

  // ---------------------------------------------------------------------------
  // The bus
  // ---------------------------------------------------------------------------

  /** Every subscriber in subscription order; the first failure aborts. */
  function Dispatch(t: Tables, e: Event): Outcome<Tables> {
    if e.kind == OrderConfirmed then Done(t)
    else
      var moved := if e.kind == GoodsShipped then Ship(t.stock, e.lines, KeyOf(e)) else Done(t.stock);
      match moved
      case Failed(error) => Failed(error)
      case Done(stock) =>
        match PostEvent(t.books, e)
        case Failed(error) => Failed(error)
        case Done(books) => Done(t.(stock := stock, books := books))
  }

  /** Record the event in the outbox, then dispatch it in the same transaction. */
  function Publish(t: Tables, e: Event): Outcome<Tables> {
    Dispatch(t.(outbox := t.outbox + [e]), e)
  }

  // ---------------------------------------------------------------------------
  // The services
  // ---------------------------------------------------------------------------

  ghost function Confirm(t: Tables, id: Id, catalog: Catalog, customers: Customers, grace: int, at: Date)
    : Outcome<Tables>
  {
    match PriceForConfirm(t.orders, id, customers.Keys, catalog)
    case Failed(error) => Failed(error)
    case Done(exact) =>
      var c := t.orders[id].customer;
      if !PassesLimit(customers[c].limit, grace, Exposure(t.orders, t.ar.invoices, c), exact) then Failed(Conflict)
      else Publish(t.(orders := MarkConfirmed(t.orders, id, catalog)), Event(OrderConfirmed, id, at, [], exact))
  }

  function ShipOrder(t: Tables, id: Id, catalog: Catalog, at: Date): Outcome<Tables> {
    match ShipmentEvent(t.orders, id, catalog, at)
    case Failed(error) => Failed(error)
    case Done(e) =>
      match Publish(t, e)
      case Failed(error) => Failed(error)
      case Done(after) => Done(after.(orders := MarkShipped(after.orders, id, at)))
  }

  function IssuedEvent(id: Id, date: Date, total: int): Event {
    Event(InvoiceIssued, id, date, [], MICRO * total)
  }

  /** The due date asked for, or the customer's payment terms. */
  function DueDay(due: Option<int>, date: Date, customer: Customer): int {
    if due.Some? then due.value else date.day + customer.terms
  }

  function Issue(t: Tables, id: Id, order: Id, date: Date, due: Option<int>, customers: Customers): Outcome<Tables> {
    if order !in t.orders || t.orders[order].status != Shipped then Failed(Rejected)
    else
      var o := t.orders[order];
      if o.currency != FUNCTIONAL_CURRENCY || !Billable(customers, o.customer) then Failed(Rejected)
      else if date.day < o.shippedDay then Failed(Rejected)
      else
        var dueDay := DueDay(due, date, customers[o.customer]);
        if dueDay < date.day then Failed(Rejected)
        else
          match AddInvoice(t.ar, id, order, o.customer, dueDay, o.total)
          case Failed(error) => Failed(error)
          case Done(ar) => Publish(t.(ar := ar), IssuedEvent(id, date, o.total))
  }

  function Void(t: Tables, id: Id, today: Date): Outcome<Tables> {
    match VoidInvoice(t.ar, id)
    case Failed(error) => Failed(error)
    case Done(ar) => Publish(t.(ar := ar), Event(InvoiceVoided, id, today, [], MICRO * t.ar.invoices[id].total))
  }

  /** Receipt, with the optional inline allocation under the payment's own reference. */
  function Receive(t: Tables, id: Id, customer: Id, customers: Customers, reference: string, amount: int, at: Date,
      targets: seq<Target>): Outcome<Tables> {
    if !Billable(customers, customer) then Failed(Rejected) else
    match AddPayment(t.ar, id, customer, reference, amount)
    case Failed(error) => Failed(error)
    case Done(ar) =>
      match Publish(t.(ar := ar), Event(PaymentReceived, id, at, [], MICRO * amount))
      case Failed(error) => Failed(error)
      case Done(received) =>
        if targets == [] then Done(received)
        else AllocateTo(received, id, reference, targets)
  }

  function VoidReceipt(t: Tables, id: Id, today: Date): Outcome<Tables> {
    match VoidPayment(t.ar, id)
    case Failed(error) => Failed(error)
    case Done(ar) => Publish(t.(ar := ar), Event(PaymentVoided, id, today, [], MICRO * t.ar.payments[id].amount))
  }

  function AllocateTo(t: Tables, p: Id, request: string, targets: seq<Target>): Outcome<Tables> {
    match Allocate(t.ar, p, request, targets)
    case Failed(error) => Failed(error)
    case Done(ar) => Done(t.(ar := ar))
  }

  function WithBooks(t: Tables, books: Outcome<Books>): Outcome<Tables> {
    match books
    case Failed(error) => Failed(error)
    case Done(b) => Done(t.(books := b))
  }

  function WithOrders(t: Tables, orders: Outcome<map<Id, Order>>): Outcome<Tables> {
    match orders
    case Failed(error) => Failed(error)
    case Done(o) => Done(t.(orders := o))
  }

  function WithStock(t: Tables, stock: Outcome<Stock>): Outcome<Tables> {
    match stock
    case Failed(error) => Failed(error)
    case Done(s) => Done(t.(stock := s))
  }

  /** One service call. Master data, dates and fresh ids arrive as arguments. */
  datatype Op =
    | CreateOrderOp(id: Id, customer: Id, customers: Customers, lines: seq<LineIn>, catalog: Catalog)
    | UpdateOrderOp(id: Id, newLines: Option<seq<LineIn>>, catalog: Catalog)
    | ConfirmOp(id: Id, catalog: Catalog, customers: Customers, grace: int, at: Date)
    | ShipOp(id: Id, catalog: Catalog, at: Date)
    | CancelOp(id: Id)
    | AdjustOp(product: Id, delta: int)
    | IssueOp(id: Id, order: Id, date: Date, due: Option<int>, customers: Customers)
    | VoidInvoiceOp(id: Id, today: Date)
    | ReceiveOp(id: Id, customer: Id, customers: Customers, reference: string, amount: int, at: Date,
                targets: seq<Target>)
    | VoidPaymentOp(id: Id, today: Date)
    | AllocateOp(id: Id, request: string, targets: seq<Target>)
    | ManualEntryOp(date: Date, entry: seq<Line>)
    | ReverseOp(entryId: nat, today: Date)
    | OpenPeriodOp(month: Month)
    | ClosePeriodOp(month: Month)
    | AccountOp(code: Code, control: bool)
    | RebuildStockOp
    | RebuildArOp
    | RedeliverOp(row: nat)

  ghost function Perform(t: Tables, op: Op): Outcome<Tables> {
    match op
    case CreateOrderOp(id, customer, customers, lines, catalog) =>
      WithOrders(t, Create(t.orders, id, customer, customers, lines, catalog))
    case UpdateOrderOp(id, lines, catalog) => WithOrders(t, Update(t.orders, id, lines, catalog))
    case ConfirmOp(id, catalog, customers, grace, at) => Confirm(t, id, catalog, customers, grace, at)
    case ShipOp(id, catalog, at) => ShipOrder(t, id, catalog, at)
    case CancelOp(id) => WithOrders(t, Cancel(t.orders, id))
    case AdjustOp(product, delta) => WithStock(t, ApplyMove(t.stock, product, delta, None))
    case IssueOp(id, order, date, due, customers) => Issue(t, id, order, date, due, customers)
    case VoidInvoiceOp(id, today) => Void(t, id, today)
    case ReceiveOp(id, customer, customers, reference, amount, at, targets) =>
      Receive(t, id, customer, customers, reference, amount, at, targets)
    case VoidPaymentOp(id, today) => VoidReceipt(t, id, today)
    case AllocateOp(id, request, targets) => AllocateTo(t, id, request, targets)
    case ManualEntryOp(date, entry) =>
      if |entry| < 2 then Failed(Rejected) else WithBooks(t, Post(t.books, EntryDraft(date, None, entry)))
    case ReverseOp(entryId, today) => WithBooks(t, Reverse(t.books, entryId, today))
    case OpenPeriodOp(month) => WithBooks(t, OpenNew(t.books, month))
    case ClosePeriodOp(month) => WithBooks(t, Close(t.books, month))
    case AccountOp(code, control) => Done(t.(books := SetAccount(t.books, code, control)))
    case RebuildStockOp => WithStock(t, Rebuild(t.stock))
    case RebuildArOp =>
      (match RebuildAr(t.ar)
       case Failed(error) => Failed(error)
       case Done(ar) => Done(t.(ar := ar)))
    case RedeliverOp(row) => if row >= |t.outbox| then Failed(NotFound) else Dispatch(t, t.outbox[row])
  }

  /** A transaction that fails is rolled back as a whole. */
  ghost function Apply(t: Tables, op: Op): Tables {
    match Perform(t, op)
    case Done(after) => after
    case Failed(_) => t
  }

  ghost function Run(t: Tables, ops: seq<Op>): Tables
    decreases |ops|
  {
    if ops == [] then t else Run(Apply(t, ops[0]), ops[1..])
  }

  function Empty(chart: map<Code, bool>): Tables {
    Tables(Books(chart, map[], [], map[]), Stock(map[], []), Ar(map[], map[], map[], []), map[], [])
  }

  // ---------------------------------------------------------------------------
  // The invariant
  // ---------------------------------------------------------------------------

  /** The document a source event speaks of exists and is in the matching state. */
  ghost predicate SourceKnown(s: Source, ar: Ar, orders: map<Id, Order>) {
    match s.event
    case OrderConfirmed => false
    case GoodsShipped => s.id in orders && orders[s.id].status == Shipped
    case InvoiceIssued => s.id in ar.invoices
    case InvoiceVoided => s.id in ar.invoices && ar.invoices[s.id].status == InvoiceVoid
    case PaymentReceived => s.id in ar.payments
    case PaymentVoided => s.id in ar.payments && ar.payments[s.id].status == PaymentVoid
  }

  ghost predicate SourcesKnown(t: Tables) {
    && (forall e :: e in t.books.entries && e.source.Some? ==> SourceKnown(e.source.value, t.ar, t.orders))
    && (forall m :: m in t.stock.moves && m.source.Some? ==>
          m.source.value.event == GoodsShipped && SourceKnown(m.source.value, t.ar, t.orders))
  }

  /** Every document was posted: with unique sources, exactly once. */
  ghost predicate DocumentsPosted(t: Tables) {
    && (forall i :: i in t.ar.invoices ==> HasSource(t.books.entries, Source(InvoiceIssued, i)))
    && (forall i :: i in t.ar.invoices && t.ar.invoices[i].status == InvoiceVoid ==>
          HasSource(t.books.entries, Source(InvoiceVoided, i)))
    && (forall p :: p in t.ar.payments ==> HasSource(t.books.entries, Source(PaymentReceived, p)))
    && (forall p :: p in t.ar.payments && t.ar.payments[p].status == PaymentVoid ==>
          HasSource(t.books.entries, Source(PaymentVoided, p)))
  }

  /** The event's effects are in the tables already. */
  ghost predicate Applied(stock: Stock, books: Books, e: Event) {
    && (e.kind == GoodsShipped ==> forall l :: l in e.lines ==> l.qty > 0 && HasMove(stock.moves, KeyOf(e), l.product))
    && (e.kind != OrderConfirmed && e.exact != 0 ==> HasSource(books.entries, KeyOf(e)) && RoundHalfEven(e.exact) > 0)
  }

  ghost predicate OutboxApplied(t: Tables) {
    forall e :: e in t.outbox ==> Applied(t.stock, t.books, e)
  }

  /** The receivables control account equals the subledger. */
  ghost predicate TiesOut(t: Tables) {
    Balance(t.books.entries, RECEIVABLE) == Subledger(t.ar)
  }

  ghost predicate KernelOk(t: Tables) {
    && BooksOk(t.books) && StockOk(t.stock) && ArOk(t.ar) && OrdersOk(t.orders)
    && Linked(t.orders, t.ar.invoices)
    && SourcesKnown(t) && DocumentsPosted(t) && OutboxApplied(t)
    && TiesOut(t)
  }

  // ---------------------------------------------------------------------------
  // Frames
  // ---------------------------------------------------------------------------

  /** `c` extends `b` by entries under the given source only. */
  ghost predicate BooksGrow(b: Books, c: Books, s: Option<Source>) {
    && b.entries <= c.entries
    && forall e :: e in c.entries ==> e in b.entries || e.source == s
  }

  lemma GrownKeepsSources(b: Books, c: Books, s: Source)
    requires b.entries <= c.entries && HasSource(b.entries, s)
    ensures HasSource(c.entries, s)
  {
    var e :| e in b.entries && e.source == Some(s);
    assert e in c.entries;
  }

  lemma GrownKeepsMoves(x: seq<Move>, y: seq<Move>, s: Source, p: Id)
    requires x <= y && HasMove(x, s, p)
    ensures HasMove(y, s, p)
  {
    var m :| m in x && m.source == Some(s) && m.product == p;
    assert m in y;
  }

  lemma AppliedStays(t: Tables, u: Tables, e: Event)
    requires Applied(t.stock, t.books, e) && t.books.entries <= u.books.entries && t.stock.moves <= u.stock.moves
    ensures Applied(u.stock, u.books, e)
  {
    if e.kind != OrderConfirmed && e.exact != 0 { GrownKeepsSources(t.books, u.books, KeyOf(e)); }
    if e.kind == GoodsShipped {
      forall l | l in e.lines ensures HasMove(u.stock.moves, KeyOf(e), l.product) {
        GrownKeepsMoves(t.stock.moves, u.stock.moves, KeyOf(e), l.product);
      }
    }
  }

  /** The outbox stays applied when tables only grow and new rows are applied. */
  lemma OutboxStays(t: Tables, u: Tables)
    requires OutboxApplied(t) && t.books.entries <= u.books.entries && t.stock.moves <= u.stock.moves
    requires forall e :: e in u.outbox ==> e in t.outbox || Applied(u.stock, u.books, e)
    ensures OutboxApplied(u)
  {
    forall e | e in u.outbox ensures Applied(u.stock, u.books, e) {
      if e in t.outbox { AppliedStays(t, u, e); }
    }
  }

  /** Entries without a source, or nothing, were added to the books. */
  lemma UnsourcedGrowthKeeps(t: Tables, u: Tables)
    requires SourcesKnown(t) && DocumentsPosted(t) && OutboxApplied(t)
    requires u == t.(books := u.books) && BooksGrow(t.books, u.books, None)
    ensures SourcesKnown(u) && DocumentsPosted(u) && OutboxApplied(u)
  {
    OutboxStays(t, u);
    forall x | HasSource(t.books.entries, x) ensures HasSource(u.books.entries, x) {
      GrownKeepsSources(t.books, u.books, x);
    }
  }

  /** What publishing a document event for the first time does to the books. */
  lemma PublishDocument(t: Tables, e: Event, amount: int)
    requires BooksOk(t.books) && e.kind !in {OrderConfirmed, GoodsShipped}
    requires e.exact == MICRO * amount && amount > 0 && !HasSource(t.books.entries, KeyOf(e))
    requires Publish(t, e).Done?
    ensures var after := Publish(t, e).value;
            && after == t.(books := after.books, outbox := t.outbox + [e])
            && BooksOk(after.books) && BooksGrow(t.books, after.books, Some(KeyOf(e)))
            && HasSource(after.books.entries, KeyOf(e)) && RoundHalfEven(e.exact) > 0
            && Balance(after.books.entries, RECEIVABLE) == Balance(t.books.entries, RECEIVABLE)
                 + (if e.kind == InvoiceIssued || e.kind == PaymentVoided then amount else -amount)
  {
    hide BooksOk;
    GridPointsAreFixed(amount);
    DeliveryShape(t.books, e);
    PostEventKeeps(t.books, e);
  }

  /** Documents only appear and only become void, each under its event's own key. */
  ghost predicate DocumentStep(x: Ar, y: Ar, s: Source) {
    && x.invoices.Keys <= y.invoices.Keys && x.payments.Keys <= y.payments.Keys
    && (forall i :: i in x.invoices && x.invoices[i].status == InvoiceVoid ==> y.invoices[i].status == InvoiceVoid)
    && (forall p :: p in x.payments && x.payments[p].status == PaymentVoid ==> y.payments[p].status == PaymentVoid)
    && (forall i :: i in y.invoices && s != Source(InvoiceIssued, i) ==> i in x.invoices)
    && (forall p :: p in y.payments && s != Source(PaymentReceived, p) ==> p in x.payments)
    && (forall i :: i in y.invoices && y.invoices[i].status == InvoiceVoid && s != Source(InvoiceVoided, i) ==>
          i in x.invoices && x.invoices[i].status == InvoiceVoid)
    && (forall p :: p in y.payments && y.payments[p].status == PaymentVoid && s != Source(PaymentVoided, p) ==>
          p in x.payments && x.payments[p].status == PaymentVoid)
  }

  lemma PublishedSources(t: Tables, u: Tables, s: Source)
    requires SourcesKnown(t) && BooksGrow(t.books, u.books, Some(s)) && DocumentStep(t.ar, u.ar, s)
    requires u.stock == t.stock && u.orders == t.orders && SourceKnown(s, u.ar, u.orders)
    ensures SourcesKnown(u)
  {
    forall x | SourceKnown(x, t.ar, t.orders) ensures SourceKnown(x, u.ar, u.orders) {}
  }

  lemma PublishedDocuments(t: Tables, u: Tables, s: Source)
    requires DocumentsPosted(t) && t.books.entries <= u.books.entries && DocumentStep(t.ar, u.ar, s)
    requires HasSource(u.books.entries, s)
    ensures DocumentsPosted(u)
  {
    forall x | HasSource(t.books.entries, x) ensures HasSource(u.books.entries, x) {
      GrownKeepsSources(t.books, u.books, x);
    }
  }

  /** The change of the subledger that the entry for `e` must match. */
  function Swing(e: Event, amount: int): int {
    if e.kind == InvoiceIssued || e.kind == PaymentVoided then amount else -amount
  }

  /** A sound subledger step, published for the first time, keeps the whole invariant. */
  lemma PublishedStepKeeps(t: Tables, ar: Ar, e: Event, amount: int)
    requires KernelOk(t) && e.kind !in {OrderConfirmed, GoodsShipped}
    requires ArOk(ar) && Linked(t.orders, ar.invoices) && DocumentStep(t.ar, ar, KeyOf(e))
    requires SourceKnown(KeyOf(e), ar, t.orders) && !SourceKnown(KeyOf(e), t.ar, t.orders)
    requires e.exact == MICRO * amount && amount > 0 && Subledger(ar) == Subledger(t.ar) + Swing(e, amount)
    requires Publish(t.(ar := ar), e).Done?
    ensures KernelOk(Publish(t.(ar := ar), e).value)
  {
    hide BooksOk, StockOk, ArOk, OrdersOk, Linked, SourcesKnown, DocumentsPosted, OutboxApplied, DocumentStep,
        SourceKnown, Subledger, PostEvent;
    FreshSource(t, KeyOf(e));
    PublishDocument(t.(ar := ar), e, amount);
    var u := Publish(t.(ar := ar), e).value;
    PublishedSources(t, u, KeyOf(e));
    PublishedDocuments(t, u, KeyOf(e));
    OutboxStays(t, u);
  }

  lemma FreshSource(t: Tables, s: Source)
    requires SourcesKnown(t) && !SourceKnown(s, t.ar, t.orders)
    ensures !HasSource(t.books.entries, s) && !HasMoveFor(t.stock.moves, s)
  {
  }

  // ---------------------------------------------------------------------------
  // Each service keeps the invariant
  // ---------------------------------------------------------------------------

  lemma IssueStep(ar: Ar, orders: map<Id, Order>, id: Id, order: Id, due: int)
    requires Linked(orders, ar.invoices) && order in orders && orders[order].status == Shipped
    requires AddInvoice(ar, id, order, orders[order].customer, due, orders[order].total).Done?
    ensures var after := AddInvoice(ar, id, order, orders[order].customer, due, orders[order].total).value;
            && id !in ar.invoices && id in after.invoices && orders[order].total > 0
            && Linked(orders, after.invoices) && DocumentStep(ar, after, Source(InvoiceIssued, id))
  {
  }

  lemma VoidStep(ar: Ar, orders: map<Id, Order>, id: Id)
    requires Linked(orders, ar.invoices) && ArOk(ar) && VoidInvoice(ar, id).Done?
    ensures var after := VoidInvoice(ar, id).value;
            && ar.invoices[id].status != InvoiceVoid && after.invoices[id].status == InvoiceVoid
            && ar.invoices[id].total > 0
            && Linked(orders, after.invoices) && DocumentStep(ar, after, Source(InvoiceVoided, id))
  {
    assert InvoiceOk(ar.invoices[id], SettledBy(ar.allocations, id));
  }

  lemma ReceiptStep(ar: Ar, id: Id, customer: Id, reference: string, amount: int)
    requires AddPayment(ar, id, customer, reference, amount).Done?
    ensures var after := AddPayment(ar, id, customer, reference, amount).value;
            && id !in ar.payments && id in after.payments && amount > 0
            && after.invoices == ar.invoices && DocumentStep(ar, after, Source(PaymentReceived, id))
  {
  }

  lemma VoidReceiptStep(ar: Ar, id: Id)
    requires ArOk(ar) && VoidPayment(ar, id).Done?
    ensures var after := VoidPayment(ar, id).value;
            && ar.payments[id].status != PaymentVoid && after.payments[id].status == PaymentVoid
            && ar.payments[id].amount > 0
            && after.invoices == ar.invoices && DocumentStep(ar, after, Source(PaymentVoided, id))
  {
    assert PaymentOk(ar.payments[id], DrawnFrom(ar.allocations, id));
  }

  lemma IssueKeeps(t: Tables, id: Id, order: Id, date: Date, due: Option<int>, customers: Customers)
    requires KernelOk(t) && Issue(t, id, order, date, due, customers).Done?
    ensures KernelOk(Issue(t, id, order, date, due, customers).value)
  {
    hide BooksOk, StockOk, ArOk, OrdersOk, Linked, SourcesKnown, DocumentsPosted, OutboxApplied, DocumentStep,
        Dispatch, Subledger, TiesOut;
    var o := t.orders[order];
    var dueDay := DueDay(due, date, customers[o.customer]);
    AddInvoiceKeeps(t.ar, id, order, o.customer, dueDay, o.total);
    IssueStep(t.ar, t.orders, id, order, dueDay);
    var ar := AddInvoice(t.ar, id, order, o.customer, dueDay, o.total).value;
    PublishedStepKeeps(t, ar, IssuedEvent(id, date, o.total), o.total);
  }

  lemma VoidKeeps(t: Tables, id: Id, today: Date)
    requires KernelOk(t) && Void(t, id, today).Done?
    ensures KernelOk(Void(t, id, today).value)
  {
    hide BooksOk, StockOk, ArOk, OrdersOk, Linked, SourcesKnown, DocumentsPosted, OutboxApplied, DocumentStep,
        Dispatch, Subledger, TiesOut;
    var total := t.ar.invoices[id].total;
    VoidInvoiceKeeps(t.ar, id);
    VoidStep(t.ar, t.orders, id);
    PublishedStepKeeps(t, VoidInvoice(t.ar, id).value, Event(InvoiceVoided, id, today, [], MICRO * total), total);
  }

  lemma AllocateToKeeps(t: Tables, p: Id, request: string, targets: seq<Target>)
    requires KernelOk(t) && AllocateTo(t, p, request, targets).Done?
    ensures KernelOk(AllocateTo(t, p, request, targets).value)
  {
    var after := AllocateTo(t, p, request, targets).value;
    AllocateKeeps(t.ar, p, request, targets);
    AllocateKeepsSubledger(t.ar, p, request, targets);
    AllocateCases(t.ar, p, request, targets);
    if CommandKey(p, request) !in t.ar.commands {
      RecordFrame(t.ar, p, request, FingerprintText(targets), targets);
    }
    SameDocuments(t, after);
  }

  /** Same identities, owners, totals and void flags. */
  ghost predicate SameFaces(x: Ar, y: Ar) {
    && x.invoices.Keys == y.invoices.Keys && x.payments.Keys == y.payments.Keys
    && (forall i :: i in x.invoices ==>
          && x.invoices[i].order == y.invoices[i].order && x.invoices[i].total == y.invoices[i].total
          && x.invoices[i].customer == y.invoices[i].customer
          && (x.invoices[i].status == InvoiceVoid <==> y.invoices[i].status == InvoiceVoid))
    && (forall p :: p in x.payments ==> x.payments[p].status == y.payments[p].status)
  }

  lemma RecordFrame(ar: Ar, p: Id, request: string, text: string, targets: seq<Target>)
    requires ArOk(ar) && Admissible(ar, p, targets)
    ensures SameFaces(ar, Record(ar, p, request, text, targets))
  {
    var after := Record(ar, p, request, text, targets);
    RecordKeepsInvoices(ar, p, request, text, targets);
    forall i | i in ar.invoices
      ensures ar.invoices[i].order == after.invoices[i].order && ar.invoices[i].total == after.invoices[i].total
      ensures ar.invoices[i].customer == after.invoices[i].customer
      ensures ar.invoices[i].status == InvoiceVoid <==> after.invoices[i].status == InvoiceVoid
    {
      RecordedInvoice(ar, p, request, text, targets, i);
    }
  }

  lemma SameDocuments(t: Tables, u: Tables)
    requires KernelOk(t) && u == t.(ar := u.ar) && SameFaces(t.ar, u.ar)
    ensures Linked(u.orders, u.ar.invoices) && SourcesKnown(u) && DocumentsPosted(u) && OutboxApplied(u)
  {
    forall s | SourceKnown(s, t.ar, t.orders) ensures SourceKnown(s, u.ar, u.orders) {}
  }

  /** The receipt half of `Receive`. */
  lemma ReceiptKeeps(t: Tables, id: Id, customer: Id, customers: Customers, reference: string, amount: int, at: Date)
    requires KernelOk(t) && Receive(t, id, customer, customers, reference, amount, at, []).Done?
    ensures KernelOk(Receive(t, id, customer, customers, reference, amount, at, []).value)
  {
    hide BooksOk, StockOk, ArOk, OrdersOk, Linked, SourcesKnown, DocumentsPosted, OutboxApplied, DocumentStep,
        Dispatch, Subledger, TiesOut;
    var ar := AddPayment(t.ar, id, customer, reference, amount).value;
    AddPaymentKeeps(t.ar, id, customer, reference, amount);
    ReceiptStep(t.ar, id, customer, reference, amount);
    PublishedStepKeeps(t, ar, Event(PaymentReceived, id, at, [], MICRO * amount), amount);
  }

  lemma ReceiveKeeps(t: Tables, id: Id, customer: Id, customers: Customers, reference: string, amount: int, at: Date,
                     targets: seq<Target>)
    requires KernelOk(t) && Receive(t, id, customer, customers, reference, amount, at, targets).Done?
    ensures KernelOk(Receive(t, id, customer, customers, reference, amount, at, targets).value)
  {
    hide KernelOk, AllocateTo, Publish, AddPayment;
    ReceiptKeeps(t, id, customer, customers, reference, amount, at);
    var received := Receive(t, id, customer, customers, reference, amount, at, []).value;
    if targets != [] { AllocateToKeeps(received, id, reference, targets); }
  }

  lemma VoidReceiptKeeps(t: Tables, id: Id, today: Date)
    requires KernelOk(t) && VoidReceipt(t, id, today).Done?
    ensures KernelOk(VoidReceipt(t, id, today).value)
  {
    hide BooksOk, StockOk, ArOk, OrdersOk, Linked, SourcesKnown, DocumentsPosted, OutboxApplied, DocumentStep,
        Dispatch, Subledger, TiesOut;
    var amount := t.ar.payments[id].amount;
    VoidPaymentKeeps(t.ar, id);
    VoidReceiptStep(t.ar, id);
    PublishedStepKeeps(t, VoidPayment(t.ar, id).value, Event(PaymentVoided, id, today, [], MICRO * amount), amount);
  }

  /** A write to one order row that is neither shipped nor becomes so. */
  lemma OrderRowKeeps(t: Tables, u: Tables, id: Id)
    requires KernelOk(t) && u == t.(orders := u.orders) && OrdersOk(u.orders)
    requires t.orders.Keys <= u.orders.Keys && (id in t.orders ==> t.orders[id].status != Shipped)
    requires forall o :: o in t.orders && o != id ==> u.orders[o] == t.orders[o]
    ensures KernelOk(u)
  {
    hide BooksOk, StockOk, ArOk, OrdersOk, Applied, Subledger, Balance, HasSource;
    forall s | SourceKnown(s, t.ar, t.orders) ensures SourceKnown(s, u.ar, u.orders) {}
    SameEffects(t, u);
  }

  lemma SameEffects(t: Tables, u: Tables)
    requires u == t.(orders := u.orders)
    ensures DocumentsPosted(t) ==> DocumentsPosted(u)
    ensures OutboxApplied(t) ==> OutboxApplied(u)
    ensures TiesOut(t) ==> TiesOut(u)
  {
    hide Applied, Subledger, Balance, HasSource;
  }

  lemma OrderServicesKeep(t: Tables, op: Op)
    requires KernelOk(t) && (op.CreateOrderOp? || op.UpdateOrderOp? || op.CancelOp?) && Perform(t, op).Done?
    ensures KernelOk(Perform(t, op).value)
  {
    hide BooksOk, StockOk, ArOk, Linked, SourcesKnown, DocumentsPosted, OutboxApplied, TiesOut, LinesSound;
    match op {
      case CreateOrderOp(id, customer, customers, lines, catalog) =>
        CreateKeeps(t.orders, id, customer, customers, lines, catalog);
      case UpdateOrderOp(id, lines, catalog) => UpdateKeeps(t.orders, id, lines, catalog);
      case CancelOp(id) =>
    }
    OrderRowKeeps(t, Perform(t, op).value, op.id);
  }

  lemma ConfirmKeepsKernel(t: Tables, id: Id, catalog: Catalog, customers: Customers, grace: int, at: Date)
    requires KernelOk(t) && Confirm(t, id, catalog, customers, grace, at).Done?
    ensures KernelOk(Confirm(t, id, catalog, customers, grace, at).value)
  {
    hide BooksOk, StockOk, ArOk, OrdersOk, Linked, SourcesKnown, DocumentsPosted, TiesOut, Exposure;
    var after := Confirm(t, id, catalog, customers, grace, at).value;
    ConfirmKeeps(t.orders, id, customers.Keys, catalog);
    var confirmed := t.(orders := MarkConfirmed(t.orders, id, catalog));
    OrderRowKeeps(t, confirmed, id);
    assert after == confirmed.(outbox := after.outbox);
    OutboxIsTheRest(confirmed, after);
  }

  lemma OutboxIsTheRest(t: Tables, u: Tables)
    requires u == t.(outbox := u.outbox)
    ensures SourcesKnown(t) ==> SourcesKnown(u)
    ensures DocumentsPosted(t) ==> DocumentsPosted(u)
    ensures TiesOut(t) ==> TiesOut(u)
  {
    hide Subledger, Balance, HasSource, SourceKnown;
  }

  lemma PayloadSound(lines: seq<OrderLine>, catalog: Catalog)
    requires LinesSound(lines) && Priced(lines, catalog)
    ensures forall l :: l in Payload(lines, catalog) ==> l.qty > 0
  {
    forall l | l in Payload(lines, catalog) ensures l.qty > 0 {
      var k :| 0 <= k < |lines| && Payload(lines, catalog)[k] == l;
      assert lines[k] in lines;
    }
  }

  /** First delivery of a shipment event: moves and entry appear under its own key. */
  lemma ShipmentDelivered(t: Tables, e: Event)
    requires BooksOk(t.books) && StockOk(t.stock) && e.kind == GoodsShipped
    requires forall l :: l in e.lines ==> l.qty > 0
    requires !HasSource(t.books.entries, KeyOf(e)) && !HasMoveFor(t.stock.moves, KeyOf(e))
    requires Dispatch(t, e).Done?
    ensures var after := Dispatch(t, e).value;
            && after == t.(books := after.books, stock := after.stock)
            && BooksOk(after.books) && StockOk(after.stock)
            && BooksGrow(t.books, after.books, Some(KeyOf(e))) && t.stock.moves <= after.stock.moves
            && (forall m :: m in after.stock.moves ==> m in t.stock.moves || m.source == Some(KeyOf(e)))
            && Applied(after.stock, after.books, e)
            && Balance(after.books.entries, RECEIVABLE) == Balance(t.books.entries, RECEIVABLE)
  {
    hide BooksOk, StockOk, Ship, PostEvent, HasMove, HasSource, Balance, Applied;
    StockDelivered(t.stock, e);
    CostDelivered(t.books, e);
    BothDelivered(Dispatch(t, e).value, e);
  }

  /** The stock half of a first delivery. */
  lemma StockDelivered(st: Stock, e: Event)
    requires StockOk(st) && !HasMoveFor(st.moves, KeyOf(e)) && Ship(st, e.lines, KeyOf(e)).Done?
    requires forall l :: l in e.lines ==> l.qty > 0
    ensures var after := Ship(st, e.lines, KeyOf(e)).value;
            && StockOk(after) && st.moves <= after.moves
            && (forall l :: l in e.lines ==> HasMove(after.moves, KeyOf(e), l.product))
            && (forall m :: m in after.moves ==> m in st.moves || m.source == Some(KeyOf(e)))
  {
    hide StockOk, Ship, HasMove;
    ShipKeeps(st, e.lines, KeyOf(e));
    ShipDelivers(st, e.lines, KeyOf(e));
    FirstDeliveryMoves(st, e.lines, KeyOf(e));
  }

  /** The books half: the cost entry, if there is one, leaves account 1100 alone. */
  lemma CostDelivered(b: Books, e: Event)
    requires BooksOk(b) && e.kind == GoodsShipped && !HasSource(b.entries, KeyOf(e)) && PostEvent(b, e).Done?
    ensures var after := PostEvent(b, e).value;
            && BooksOk(after) && BooksGrow(b, after, Some(KeyOf(e)))
            && (e.exact != 0 ==> HasSource(after.entries, KeyOf(e)) && RoundHalfEven(e.exact) > 0)
            && Balance(after.entries, RECEIVABLE) == Balance(b.entries, RECEIVABLE)
  {
    hide BooksOk, PostEvent, RoundHalfEven, EventLines;
    DeliveryShape(b, e);
    PostEventKeeps(b, e);
  }

  lemma BothDelivered(u: Tables, e: Event)
    requires forall l :: l in e.lines ==> l.qty > 0 && HasMove(u.stock.moves, KeyOf(e), l.product)
    requires e.exact != 0 ==> HasSource(u.books.entries, KeyOf(e)) && RoundHalfEven(e.exact) > 0
    ensures Applied(u.stock, u.books, e)
  {
  }

  /** The order became shipped, and only its own key was used. */
  lemma ShippedSources(t: Tables, u: Tables, id: Id, at: Date)
    requires SourcesKnown(t) && DocumentsPosted(t) && Linked(t.orders, t.ar.invoices) && OrdersOk(t.orders)
    requires id in t.orders && t.orders[id].status == Confirmed
    requires u.orders == MarkShipped(t.orders, id, at) && u.ar == t.ar
    requires BooksGrow(t.books, u.books, Some(Source(GoodsShipped, id)))
    requires forall m :: m in u.stock.moves ==> m in t.stock.moves || m.source == Some(Source(GoodsShipped, id))
    ensures SourcesKnown(u) && DocumentsPosted(u) && Linked(u.orders, u.ar.invoices) && OrdersOk(u.orders)
  {
    forall s | SourceKnown(s, t.ar, t.orders) ensures SourceKnown(s, u.ar, u.orders) {}
    assert SourceKnown(Source(GoodsShipped, id), u.ar, u.orders);
    forall s | HasSource(t.books.entries, s) ensures HasSource(u.books.entries, s) {
      GrownKeepsSources(t.books, u.books, s);
    }
  }

  lemma ShipmentIsNew(t: Tables, id: Id, catalog: Catalog, at: Date)
    requires SourcesKnown(t) && OrdersOk(t.orders) && ShipmentEvent(t.orders, id, catalog, at).Done?
    ensures var e := ShipmentEvent(t.orders, id, catalog, at).value;
            && KeyOf(e) == Source(GoodsShipped, id) && t.orders[id].status == Confirmed
            && !HasSource(t.books.entries, KeyOf(e)) && !HasMoveFor(t.stock.moves, KeyOf(e))
            && forall l :: l in e.lines ==> l.qty > 0
  {
    PayloadSound(t.orders[id].lines, catalog);
    FreshSource(t, Source(GoodsShipped, id));
  }

  lemma ShipOrderKeeps(t: Tables, id: Id, catalog: Catalog, at: Date)
    requires KernelOk(t) && ShipOrder(t, id, catalog, at).Done?
    ensures KernelOk(ShipOrder(t, id, catalog, at).value)
  {
    hide BooksOk, StockOk, ArOk, OrdersOk, Linked, SourcesKnown, DocumentsPosted, OutboxApplied, Applied, Dispatch,
        Subledger;
    var e := ShipmentEvent(t.orders, id, catalog, at).value;
    ShipmentIsNew(t, id, catalog, at);
    ShipmentDelivered(t.(outbox := t.outbox + [e]), e);
    var after := ShipOrder(t, id, catalog, at).value;
    ShippedSources(t, after, id, at);
    OutboxStays(t, after);
  }

  /** An event whose effects are there already is skipped or aborts: nothing changes. */
  lemma RedeliveryChangesNothing(t: Tables, e: Event)
    requires Applied(t.stock, t.books, e)
    ensures Dispatch(t, e) == Done(t) || Dispatch(t, e).Failed?
  {
    if e.kind != OrderConfirmed {
      if e.kind == GoodsShipped {
        assert e.lines != [] ==> e.lines[0] in e.lines;
        RedeliveryMovesNothing(t.stock, e.lines, KeyOf(e));
      }
      if e.exact != 0 { RedeliveryPostsNothing(t.books, e); }
    }
  }

  lemma ManualEntryKeeps(t: Tables, date: Date, entry: seq<Line>)
    requires KernelOk(t) && Post(t.books, EntryDraft(date, None, entry)).Done?
    ensures KernelOk(t.(books := Post(t.books, EntryDraft(date, None, entry)).value))
  {
    hide StockOk, ArOk, OrdersOk, Linked, SourcesKnown, DocumentsPosted, OutboxApplied, Subledger;
    var b := Post(t.books, EntryDraft(date, None, entry)).value;
    PostKeeps(t.books, EntryDraft(date, None, entry));
    UnsourcedAppend(t.books, b, date, None, entry);
    UnsourcedGrowthKeeps(t, t.(books := b));
  }

  lemma ReversalKeeps(t: Tables, id: nat, today: Date)
    requires KernelOk(t) && Reverse(t.books, id, today).Done?
    ensures KernelOk(t.(books := Reverse(t.books, id, today).value))
  {
    hide StockOk, ArOk, OrdersOk, Linked, SourcesKnown, DocumentsPosted, OutboxApplied, Subledger;
    var b := Reverse(t.books, id, today).value;
    ReverseKeeps(t.books, id, today);
    UnsourcedAppend(t.books, b, today, Some(id), Swapped(t.books.entries[id].lines));
    UnsourcedGrowthKeeps(t, t.(books := b));
  }

  /** Periods and accounts leave entries, documents and stock alone. */
  lemma SettingsKeep(t: Tables, b: Books)
    requires KernelOk(t) && BooksOk(b) && b.entries == t.books.entries
    ensures KernelOk(t.(books := b))
  {
    hide BooksOk, StockOk, ArOk, OrdersOk, Linked, SourcesKnown, DocumentsPosted, OutboxApplied, Subledger;
    UnsourcedGrowthKeeps(t, t.(books := b));
  }

  lemma BookServicesKeep(t: Tables, op: Op)
    requires KernelOk(t) && Perform(t, op).Done?
    requires op.ManualEntryOp? || op.ReverseOp? || op.OpenPeriodOp? || op.ClosePeriodOp? || op.AccountOp?
    ensures KernelOk(Perform(t, op).value)
  {
    hide BooksOk, StockOk, ArOk, OrdersOk, Linked, SourcesKnown, DocumentsPosted, OutboxApplied, Subledger, TiesOut,
        Post, Reverse;
    var after := Perform(t, op).value;
    match op {
      case ManualEntryOp(date, entry) => ManualEntryKeeps(t, date, entry);
      case ReverseOp(entryId, today) => ReversalKeeps(t, entryId, today);
      case OpenPeriodOp(month) => PeriodsKeep(t.books, after.books.periods); SettingsKeep(t, after.books);
      case ClosePeriodOp(month) => PeriodsKeep(t.books, after.books.periods); SettingsKeep(t, after.books);
      case AccountOp(code, control) => SetAccountKeeps(t.books, code, control); SettingsKeep(t, after.books);
    }
  }

  lemma UnsourcedAppend(b: Books, c: Books, d: Date, reversalOf: Option<nat>, lines: seq<Line>)
    requires c == Append(b, d, None, reversalOf, lines) && ControlSealed(c)
    ensures BooksGrow(b, c, None)
    ensures Balance(c.entries, RECEIVABLE) == Balance(b.entries, RECEIVABLE)
  {
    assert c.entries[|b.entries|] in c.entries;
    UnsourcedKeepsReceivable(b, d, reversalOf, lines);
  }

  /** Rebuilds are the identity on every state that satisfies the invariant. */
  lemma RebuildsChangeNothing(t: Tables)
    requires KernelOk(t)
    ensures Apply(t, RebuildStockOp) == t && Apply(t, RebuildArOp) == t
  {
    hide BooksOk, StockOk, ArOk, OrdersOk, Linked, SourcesKnown, DocumentsPosted, OutboxApplied, TiesOut;
    hide Rebuild, RebuildAr;
    RebuildIsIdentity(t.stock);
    NoDrift(t.ar);
    RebuildRestores(t.ar, t.ar);
  }

  lemma NoDrift(ar: Ar)
    ensures DriftOf(ar, ar)
  {
  }

  lemma RecordedIsApplied(t: Tables, row: nat)
    requires KernelOk(t) && row < |t.outbox|
    ensures Applied(t.stock, t.books, t.outbox[row])
  {
    hide Applied;
  }

  lemma ApplyKeeps(t: Tables, op: Op)
    requires KernelOk(t)
    ensures KernelOk(Apply(t, op))
  {
    hide KernelOk, Dispatch, Post, Reverse, Close, OpenNew, Create, Update, Cancel, Allocate, ApplyMove;
    hide Rebuild, RebuildAr;
    if Perform(t, op).Done? {
      match op {
        case CreateOrderOp(_, _, _, _, _) => OrderServicesKeep(t, op);
        case UpdateOrderOp(_, _, _) => OrderServicesKeep(t, op);
        case CancelOp(_) => OrderServicesKeep(t, op);
        case ConfirmOp(id, catalog, customers, grace, at) => ConfirmKeepsKernel(t, id, catalog, customers, grace, at);
        case ShipOp(id, catalog, at) => ShipOrderKeeps(t, id, catalog, at);
        case AdjustOp(product, delta) => AdjustKeeps(t, product, delta);
        case IssueOp(id, order, date, due, customers) => IssueKeeps(t, id, order, date, due, customers);
        case VoidInvoiceOp(id, today) => VoidKeeps(t, id, today);
        case ReceiveOp(id, customer, customers, reference, amount, at, targets) =>
          ReceiveKeeps(t, id, customer, customers, reference, amount, at, targets);
        case VoidPaymentOp(id, today) => VoidReceiptKeeps(t, id, today);
        case AllocateOp(id, request, targets) => AllocateToKeeps(t, id, request, targets);
        case RebuildStockOp => RebuildsChangeNothing(t);
        case RebuildArOp => RebuildsChangeNothing(t);
        case RedeliverOp(row) =>
          RecordedIsApplied(t, row);
          RedeliveryChangesNothing(t, t.outbox[row]);
        case _ => BookServicesKeep(t, op);
      }
    }
  }

  lemma AdjustKeeps(t: Tables, product: Id, delta: int)
    requires KernelOk(t) && ApplyMove(t.stock, product, delta, None).Done?
    ensures KernelOk(t.(stock := ApplyMove(t.stock, product, delta, None).value))
  {
    var after := t.(stock := ApplyMove(t.stock, product, delta, None).value);
    ApplyMoveKeeps(t.stock, product, delta, None);
    OutboxStays(t, after);
  }

  /** The invariant holds after every run of the kernel, from empty tables. */
  lemma {:induction false} RunKeeps(t: Tables, ops: seq<Op>)
    requires KernelOk(t)
    ensures KernelOk(Run(t, ops))
    decreases |ops|
  {
    if ops != [] {
      ApplyKeeps(t, ops[0]);
      RunKeeps(Apply(t, ops[0]), ops[1..]);
    }
  }
}
