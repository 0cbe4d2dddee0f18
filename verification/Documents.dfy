/** What the outbox and the journal say about documents in every reachable state: one
    event per key, entries at the document's amount, and a void that undoes its issue. */
module Documents {
  import opened Common
  import opened Decimals
  import opened Sums
  import opened Ledger
  import opened Posting
  import opened Inventory
  import opened Fingerprint
  import opened Receivables
  import opened Sales
  import opened OrderSums
  import opened Credit
  import opened Kernel
  import opened Reachable
  import opened History

  // ---------------------------------------------------------------------------
  // Documents over time
  // ---------------------------------------------------------------------------

  /** Documents stay, at their amount, and stay void once void. */
  ghost predicate DocumentsStay(x: Ar, y: Ar) {
    && (forall i :: i in x.invoices ==>
          && i in y.invoices && y.invoices[i].total == x.invoices[i].total
          && (x.invoices[i].status == InvoiceVoid ==> y.invoices[i].status == InvoiceVoid))
    && (forall p :: p in x.payments ==>
          && p in y.payments && y.payments[p].amount == x.payments[p].amount
          && (x.payments[p].status == PaymentVoid ==> y.payments[p].status == PaymentVoid))
  }

  lemma AllocationKeepsDocuments(t: Tables, p: Id, request: string, targets: seq<Target>)
    requires ArOk(t.ar) && AllocateTo(t, p, request, targets).Done?
    ensures DocumentsStay(t.ar, AllocateTo(t, p, request, targets).value.ar)
  {
    hide FingerprintText;
    AllocateCases(t.ar, p, request, targets);
    if CommandKey(p, request) !in t.ar.commands {
      RecordFrame(t.ar, p, request, FingerprintText(targets), targets);
    }
  }

  /** The document of an event is there, in the state the event announces. */
  ghost predicate EventKnown(e: Event, ar: Ar, orders: map<Id, Order>) {
    if e.kind == OrderConfirmed then e.id in orders && orders[e.id].status != Draft
    else SourceKnown(KeyOf(e), ar, orders)
  }

  lemma KnownStays(e: Event, x: Ar, y: Ar, m: map<Id, Order>, n: map<Id, Order>)
    requires EventKnown(e, x, m) && DocumentsStay(x, y) && OrdersFollow(m, n)
    ensures EventKnown(e, y, n)
  {
    hide SameGoods;
    if e.kind == OrderConfirmed || e.kind == GoodsShipped { assert Follows(m[e.id], n[e.id]); }
  }

  // ---------------------------------------------------------------------------
  // The invariant
  // ---------------------------------------------------------------------------

  /** The amount of the document an event speaks of. */
  function AmountOf(s: Source, ar: Ar): Option<int> {
    match s.event
    case InvoiceIssued => if s.id in ar.invoices then Some(ar.invoices[s.id].total) else None
    case InvoiceVoided => if s.id in ar.invoices then Some(ar.invoices[s.id].total) else None
    case PaymentReceived => if s.id in ar.payments then Some(ar.payments[s.id].amount) else None
    case PaymentVoided => if s.id in ar.payments then Some(ar.payments[s.id].amount) else None
    case _ => None
  }

  predicate OfDocument(s: Source) {
    s.event == InvoiceIssued || s.event == InvoiceVoided || s.event == PaymentReceived || s.event == PaymentVoided
  }

  /** A document's entry has the lines of its rule, at the document's amount. */
  ghost predicate EntryPriced(x: Entry, ar: Ar) {
    x.source.Some? && OfDocument(x.source.value) ==>
      && AmountOf(x.source.value, ar).Some? && x.source.value.event in POSTING_RULES
      && x.lines == EventLines(POSTING_RULES[x.source.value.event], MICRO * AmountOf(x.source.value, ar).value)
  }

  ghost predicate EntriesPriced(t: Tables) {
    forall x :: x in t.books.entries ==> EntryPriced(x, t.ar)
  }

  ghost predicate OutboxKnown(t: Tables) {
    forall e :: e in t.outbox ==> EventKnown(e, t.ar, t.orders)
  }

  /** No two recorded events share a key. */
  ghost predicate OutboxKeyed(t: Tables) {
    forall i, j :: 0 <= i < j < |t.outbox| ==> KeyOf(t.outbox[i]) != KeyOf(t.outbox[j])
  }

  /** A recorded shipment names the goods of its order, line by line, and the exact cost of
      its own lines. */
  ghost predicate ShipmentCosted(e: Event, orders: map<Id, Order>) {
    e.kind == GoodsShipped ==>
      && e.exact == SumOf(e.lines, ShippedCost)
      && e.id in orders && orders[e.id].status == Shipped
      && |e.lines| == |orders[e.id].lines|
      && forall k :: 0 <= k < |e.lines| ==>
           e.lines[k].product == orders[e.id].lines[k].product && e.lines[k].qty == orders[e.id].lines[k].qty
  }

  ghost predicate OutboxCosted(t: Tables) {
    forall e :: e in t.outbox ==> ShipmentCosted(e, t.orders)
  }

  ghost predicate Documented(t: Tables) {
    EntriesPriced(t) && OutboxKnown(t) && OutboxKeyed(t) && OutboxCosted(t)
  }

  lemma CostedStays(e: Event, m: map<Id, Order>, n: map<Id, Order>)
    requires ShipmentCosted(e, m) && OrdersFollow(m, n)
    ensures ShipmentCosted(e, n)
  {
    hide SameGoods;
    if e.kind == GoodsShipped { assert Follows(m[e.id], n[e.id]); }
  }

  lemma NewShipmentIsCosted(orders: map<Id, Order>, id: Id, catalog: Catalog, at: Date)
    requires ShipmentEvent(orders, id, catalog, at).Done?
    ensures ShipmentCosted(ShipmentEvent(orders, id, catalog, at).value, MarkShipped(orders, id, at))
  {
    CostIsTotal(orders[id].lines, catalog);
  }

  // ---------------------------------------------------------------------------
  // Steps
  // ---------------------------------------------------------------------------

  lemma PricedStays(x: Entry, a: Ar, b: Ar)
    requires EntryPriced(x, a) && DocumentsStay(a, b)
    ensures EntryPriced(x, b)
  {
    hide EventLines;
  }

  /** Nothing was published. */
  lemma QuietStep(t: Tables, u: Tables)
    requires Documented(t) && u.outbox == t.outbox
    requires DocumentsStay(t.ar, u.ar) && OrdersFollow(t.orders, u.orders)
    requires forall x :: x in u.books.entries ==> x in t.books.entries || x.source == None
    ensures Documented(u)
  {
    hide EventKnown, EntryPriced, DocumentsStay, OrdersFollow, ShipmentCosted;
    forall x | x in u.books.entries ensures EntryPriced(x, u.ar) {
      if x in t.books.entries { PricedStays(x, t.ar, u.ar); } else { UnsourcedIsPriced(x, u.ar); }
    }
    forall e | e in u.outbox ensures ShipmentCosted(e, u.orders) { CostedStays(e, t.orders, u.orders); }
    forall e | e in u.outbox ensures EventKnown(e, u.ar, u.orders) { KnownStays(e, t.ar, u.ar, t.orders, u.orders); }
  }

  lemma UnsourcedIsPriced(x: Entry, ar: Ar)
    requires x.source == None
    ensures EntryPriced(x, ar)
  {
  }

  /** One event was published, for a document that only now is in its state. */
  lemma PublishedStep(t: Tables, u: Tables, e: Event)
    requires Documented(t) && u.outbox == t.outbox + [e]
    requires DocumentsStay(t.ar, u.ar) && OrdersFollow(t.orders, u.orders)
    requires !EventKnown(e, t.ar, t.orders) && EventKnown(e, u.ar, u.orders) && ShipmentCosted(e, u.orders)
    requires forall x :: x in u.books.entries ==> x in t.books.entries || EntryPriced(x, u.ar)
    ensures Documented(u)
  {
    hide EventKnown, EntryPriced, DocumentsStay, OrdersFollow, ShipmentCosted;
    forall x | x in u.books.entries ensures EntryPriced(x, u.ar) {
      if x in t.books.entries { PricedStays(x, t.ar, u.ar); }
    }
    forall d | d in u.outbox ensures ShipmentCosted(d, u.orders) {
      if d in t.outbox { CostedStays(d, t.orders, u.orders); }
    }
    forall d | d in u.outbox ensures EventKnown(d, u.ar, u.orders) {
      if d in t.outbox { KnownStays(d, t.ar, u.ar, t.orders, u.orders); }
    }
    forall d | d in t.outbox ensures KeyOf(d) != KeyOf(e) {
      if KeyOf(d) == KeyOf(e) { KnownByKey(d, e, t.ar, t.orders); }
    }
  }

  lemma KnownByKey(d: Event, e: Event, ar: Ar, orders: map<Id, Order>)
    requires KeyOf(d) == KeyOf(e)
    ensures EventKnown(d, ar, orders) <==> EventKnown(e, ar, orders)
  {
  }

  /** What a publication adds to the journal: at most the rule's lines at the event's amount. */
  lemma PublishEntries(t: Tables, e: Event)
    requires Publish(t, e).Done?
    ensures var u := Publish(t, e).value;
            && u.outbox == t.outbox + [e] && u.ar == t.ar && u.orders == t.orders
            && forall x :: x in u.books.entries ==>
                 || x in t.books.entries
                 || (x.source == Some(KeyOf(e)) && e.kind in POSTING_RULES
                     && x.lines == EventLines(POSTING_RULES[e.kind], e.exact))
  {
    hide PostEvent, Ship, EventLines;
    if e.kind != OrderConfirmed { DeliveryShape(t.books, e); }
  }

  lemma PublishedIsPriced(t: Tables, e: Event)
    requires Publish(t, e).Done?
    requires OfDocument(KeyOf(e)) ==>
               AmountOf(KeyOf(e), t.ar).Some? && e.exact == MICRO * AmountOf(KeyOf(e), t.ar).value
    ensures forall x :: x in Publish(t, e).value.books.entries ==> x in t.books.entries || EntryPriced(x, t.ar)
  {
    hide Publish, EventLines;
    PublishEntries(t, e);
  }

  lemma OrderPublishes(t: Tables, op: Op)
    requires Documented(t) && (op.ConfirmOp? || op.ShipOp?) && Perform(t, op).Done?
    requires KernelOk(t)
    ensures Documented(Perform(t, op).value)
  {
    hide KernelOk, Documented, Publish, Exposure, Payload, CostTotal, EntryPriced, OrdersFollow, Stored;
    OrdersLive(t, op);
    match op {
      case ConfirmOp(id, catalog, customers, grace, at) =>
        var e := Event(OrderConfirmed, id, at, [], PriceForConfirm(t.orders, id, customers.Keys, catalog).value);
        var marked := t.(orders := MarkConfirmed(t.orders, id, catalog));
        PublishEntries(marked, e);
        PublishedIsPriced(marked, e);
        PublishedStep(t, Perform(t, op).value, e);
      case ShipOp(id, catalog, at) =>
        var e := ShipmentEvent(t.orders, id, catalog, at).value;
        PublishEntries(t, e);
        PublishedIsPriced(t, e);
        NewShipmentIsCosted(t.orders, id, catalog, at);
        PublishedStep(t, Perform(t, op).value, e);
    }
  }

  lemma InvoicePublishes(t: Tables, op: Op)
    requires Documented(t) && (op.IssueOp? || op.VoidInvoiceOp?) && Perform(t, op).Done?
    ensures Documented(Perform(t, op).value)
  {
    hide Documented, Publish, EntryPriced, OrdersFollow, HasLiveInvoice;
    OrdersLive(t, op);
    match op {
      case IssueOp(id, order, date, due, customers) =>
        var o := t.orders[order];
        var dueDay := DueDay(due, date, customers[o.customer]);
        var ar := AddInvoice(t.ar, id, order, o.customer, dueDay, o.total).value;
        PublishEntries(t.(ar := ar), IssuedEvent(id, date, o.total));
        PublishedIsPriced(t.(ar := ar), IssuedEvent(id, date, o.total));
        PublishedStep(t, Perform(t, op).value, IssuedEvent(id, date, o.total));
      case VoidInvoiceOp(id, today) =>
        var ar := VoidInvoice(t.ar, id).value;
        var e := Event(InvoiceVoided, id, today, [], MICRO * t.ar.invoices[id].total);
        PublishEntries(t.(ar := ar), e);
        PublishedIsPriced(t.(ar := ar), e);
        PublishedStep(t, Perform(t, op).value, e);
    }
  }

  lemma VoidReceiptPublishes(t: Tables, id: Id, today: Date)
    requires Documented(t) && VoidReceipt(t, id, today).Done?
    ensures Documented(VoidReceipt(t, id, today).value)
  {
    hide Documented, Publish, EntryPriced, OrdersFollow;
    OrdersLive(t, VoidPaymentOp(id, today));
    var ar := VoidPayment(t.ar, id).value;
    var e := Event(PaymentVoided, id, today, [], MICRO * t.ar.payments[id].amount);
    PublishEntries(t.(ar := ar), e);
    PublishedIsPriced(t.(ar := ar), e);
    PublishedStep(t, VoidReceipt(t, id, today).value, e);
  }

  lemma NothingFollows(orders: map<Id, Order>)
    ensures OrdersFollow(orders, orders)
  {
  }

  lemma ReceiptPublishes(t: Tables, id: Id, customer: Id, customers: Customers, reference: string, amount: int,
                         at: Date)
    requires Documented(t) && Receive(t, id, customer, customers, reference, amount, at, []).Done?
    ensures Documented(Receive(t, id, customer, customers, reference, amount, at, []).value)
  {
    hide Documented, Publish, EntryPriced, OrdersFollow, ReferenceUsed;
    NothingFollows(t.orders);
    var ar := AddPayment(t.ar, id, customer, reference, amount).value;
    var e := Event(PaymentReceived, id, at, [], MICRO * amount);
    PublishEntries(t.(ar := ar), e);
    PublishedIsPriced(t.(ar := ar), e);
    PublishedStep(t, Publish(t.(ar := ar), e).value, e);
  }

  lemma AllocationIsQuiet(t: Tables, p: Id, request: string, targets: seq<Target>)
    requires Documented(t) && ArOk(t.ar) && AllocateTo(t, p, request, targets).Done?
    ensures Documented(AllocateTo(t, p, request, targets).value)
  {
    hide Documented, OrdersFollow, ArOk, Allocate;
    NothingFollows(t.orders);
    AllocationKeepsDocuments(t, p, request, targets);
    QuietStep(t, AllocateTo(t, p, request, targets).value);
  }

  lemma ReceivePublishes(t: Tables, op: Op)
    requires Documented(t) && KernelOk(t) && op.ReceiveOp? && Perform(t, op).Done?
    ensures Documented(Perform(t, op).value)
  {
    hide Documented, KernelOk, Publish, AllocateTo, AddPayment;
    ReceiptPublishes(t, op.id, op.customer, op.customers, op.reference, op.amount, op.at);
    ReceiptKeeps(t, op.id, op.customer, op.customers, op.reference, op.amount, op.at);
    var received := Receive(t, op.id, op.customer, op.customers, op.reference, op.amount, op.at, []).value;
    KernelHasAr(received);
    if op.targets != [] { AllocationIsQuiet(received, op.id, op.reference, op.targets); }
  }

  lemma KernelHasAr(t: Tables)
    requires KernelOk(t)
    ensures ArOk(t.ar)
  {
    hide ArOk, BooksOk, StockOk, OrdersOk, Linked, SourcesKnown, DocumentsPosted, OutboxApplied, TiesOut;
  }

  /** Entries that book services add carry no source. */
  lemma BooksAddUnsourced(t: Tables, op: Op)
    requires op.ManualEntryOp? || op.ReverseOp? || op.OpenPeriodOp? || op.ClosePeriodOp? || op.AccountOp?
    requires Perform(t, op).Done?
    ensures var u := Perform(t, op).value;
            && u == t.(books := u.books)
            && forall x :: x in u.books.entries ==> x in t.books.entries || x.source == None
  {
    hide Postable, TouchesControl, Swapped, IsReversed;
  }

  lemma QuietOps(t: Tables, op: Op)
    requires Documented(t) && Perform(t, op).Done?
    requires op.ManualEntryOp? || op.ReverseOp? || op.OpenPeriodOp? || op.ClosePeriodOp? || op.AccountOp?
          || op.CreateOrderOp? || op.UpdateOrderOp? || op.CancelOp? || op.AdjustOp?
    ensures Documented(Perform(t, op).value)
  {
    hide Documented, OrdersFollow, Post, Reverse, Close, OpenNew, SetAccount, Create, Update, Cancel;
    OrdersLive(t, op);
    if op.ManualEntryOp? || op.ReverseOp? || op.OpenPeriodOp? || op.ClosePeriodOp? || op.AccountOp? {
      BooksAddUnsourced(t, op);
    }
    QuietStep(t, Perform(t, op).value);
  }

  lemma StepKeepsDocumented(t: Tables, op: Op)
    requires KernelOk(t) && Documented(t)
    ensures Documented(Apply(t, op))
  {
    hide KernelOk, Documented, Perform;
    if Perform(t, op).Done? {
      match op {
        case ConfirmOp(_, _, _, _, _) => OrderPublishes(t, op);
        case ShipOp(_, _, _) => OrderPublishes(t, op);
        case IssueOp(_, _, _, _, _) => InvoicePublishes(t, op);
        case VoidInvoiceOp(_, _) => InvoicePublishes(t, op);
        case VoidPaymentOp(id, today) => VoidsByPerform(t, op); VoidReceiptPublishes(t, id, today);
        case ReceiveOp(_, _, _, _, _, _, _) => ReceivePublishes(t, op);
        case AllocateOp(id, request, targets) =>
          KernelHasAr(t);
          VoidsByPerform(t, op);
          AllocationIsQuiet(t, id, request, targets);
        case RebuildStockOp => RebuildsChangeNothing(t);
        case RebuildArOp => RebuildsChangeNothing(t);
        case RedeliverOp(row) => RedeliveryLeaves(t, row);
        case _ => QuietOps(t, op);
      }
    }
  }

  lemma VoidsByPerform(t: Tables, op: Op)
    ensures op.VoidPaymentOp? ==> Perform(t, op) == VoidReceipt(t, op.id, op.today)
    ensures op.AllocateOp? ==> Perform(t, op) == AllocateTo(t, op.id, op.request, op.targets)
  {
    hide VoidReceipt, AllocateTo;
  }

  lemma {:induction false} RunKeepsDocumented(t: Tables, ops: seq<Op>)
    requires KernelOk(t) && Documented(t)
    ensures Documented(Run(t, ops))
    decreases |ops|
  {
    hide KernelOk, Documented, Apply;
    if ops != [] {
      StepKeepsDocumented(t, ops[0]);
      ApplyKeeps(t, ops[0]);
      RunKeepsDocumented(Apply(t, ops[0]), ops[1..]);
    }
  }

  lemma ReachedIsDocumented(t: Tables)
    requires Reached(t)
    ensures Documented(t)
  {
    hide KernelOk;
    var chart: map<Code, bool>, ops: seq<Op> :| t == Run(Empty(chart), ops);
    EmptyIsOk(chart);
    RunKeepsDocumented(Empty(chart), ops);
  }

  // ---------------------------------------------------------------------------
  // What it means
  // ---------------------------------------------------------------------------

  /** In every reachable state no two outbox rows share event type and source id. */
  lemma OutboxKeysAreDistinct(t: Tables, i: nat, j: nat)
    requires Reached(t) && i < j < |t.outbox|
    ensures KeyOf(t.outbox[i]) != KeyOf(t.outbox[j])
  {
    hide EntriesPriced, OutboxKnown, Reached;
    ReachedIsDocumented(t);
  }

  lemma PricedEffect(x: Entry, ar: Ar, a: Code)
    requires EntryPriced(x, ar) && x.source.Some? && OfDocument(x.source.value)
    ensures var s := x.source.value;
            && AmountOf(s, ar).Some? && s.event in POSTING_RULES
            && Net(x.lines, a) == Effect(Event(s.event, s.id, x.date, [], MICRO * AmountOf(s, ar).value), a)
  {
    hide EventLines;
    var s := x.source.value;
    EventLinesFacts(POSTING_RULES[s.event], MICRO * AmountOf(s, ar).value, a);
  }

  /** In every reachable state a recorded shipment was published with the exact cost of its
      own lines, for exactly the goods of its order. */
  lemma ShipmentsAreCosted(t: Tables, e: Event)
    requires Reached(t) && e in t.outbox && e.kind == GoodsShipped
    ensures e.exact == SumOf(e.lines, ShippedCost)
    ensures e.id in t.orders && t.orders[e.id].status == Shipped && |e.lines| == |t.orders[e.id].lines|
    ensures forall k :: 0 <= k < |e.lines| ==>
              && e.lines[k].product == t.orders[e.id].lines[k].product
              && e.lines[k].qty == t.orders[e.id].lines[k].qty
  {
    hide Reached, EntriesPriced, OutboxKnown, OutboxKeyed;
    ReachedIsDocumented(t);
  }

  /** In every reachable state a voided document has its two entries, and they net to zero
      on every account: a voided invoice or receipt leaves no trace in any balance. */
  lemma VoidedLeavesNoTrace(t: Tables, issued: Source, voided: Source, x: Entry, y: Entry, a: Code)
    requires Reached(t) && issued.id == voided.id
    requires (issued.event == InvoiceIssued && voided.event == InvoiceVoided)
          || (issued.event == PaymentReceived && voided.event == PaymentVoided)
    requires x in t.books.entries && x.source == Some(issued) && y in t.books.entries && y.source == Some(voided)
    ensures Net(x.lines, a) + Net(y.lines, a) == 0
  {
    hide Reached, EntryPriced, OutboxKnown, OutboxKeyed, Effect;
    ReachedIsDocumented(t);
    PricedEffect(x, t.ar, a);
    PricedEffect(y, t.ar, a);
    var amount := MICRO * AmountOf(issued, t.ar).value;
    VoidsMirror(Event(issued.event, issued.id, x.date, [], amount),
                Event(voided.event, voided.id, y.date, [], amount), a);
  }
}
