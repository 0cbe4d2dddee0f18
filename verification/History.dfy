/** What no service call can take back: posted history, closed months, and the life of an
    order. */
module History {
  import opened Common
  import opened Decimals
  import opened Ledger
  import opened Posting
  import opened Inventory
  import opened Fingerprint
  import opened Receivables
  import opened Sales
  import opened Credit
  import opened Kernel
  import opened Reachable

  // ---------------------------------------------------------------------------
  // Append-only tables
  // ---------------------------------------------------------------------------

  ghost predicate ClosedIn(b: Books, m: Month) {
    m in b.periods && b.periods[m] == Closed
  }

  /** The books gained entries in open months only, and no closed month was opened. */
  ghost predicate BooksAdvance(b: Books, c: Books) {
    && b.entries <= c.entries
    && (forall k :: |b.entries| <= k < |c.entries| ==> !ClosedIn(b, MonthOf(c.entries[k].date)))
    && (forall m :: ClosedIn(b, m) ==> ClosedIn(c, m))
  }

  /** Entries, moves, allocation rows and outbox rows are only ever appended. */
  ghost predicate Advances(t: Tables, u: Tables) {
    && BooksAdvance(t.books, u.books)
    && t.stock.moves <= u.stock.moves
    && t.ar.allocations <= u.ar.allocations
    && t.outbox <= u.outbox
  }

  lemma AppendAdvances(b: Books, d: Date, source: Option<Source>, reversalOf: Option<nat>, lines: seq<Line>)
    requires PeriodOpen(b, d)
    ensures BooksAdvance(b, Append(b, d, source, reversalOf, lines))
  {
  }

  lemma PostEventAdvances(b: Books, e: Event)
    requires PostEvent(b, e).Done?
    ensures BooksAdvance(b, PostEvent(b, e).value)
  {
    hide BooksAdvance, Append, EventLines;
    if PostEvent(b, e).value != b {
      AppendAdvances(b, e.date, Some(KeyOf(e)), None, EventLines(POSTING_RULES[e.kind], e.exact));
    } else {
      Unmoved(b);
    }
  }

  lemma Unmoved(b: Books)
    ensures BooksAdvance(b, b)
  {
  }

  lemma BookOpAdvances(b: Books, op: Op)
    requires op.ManualEntryOp? || op.ReverseOp? || op.OpenPeriodOp? || op.ClosePeriodOp? || op.AccountOp?
    ensures match op
            case ManualEntryOp(date, entry) =>
              Post(b, EntryDraft(date, None, entry)).Done? ==>
                BooksAdvance(b, Post(b, EntryDraft(date, None, entry)).value)
            case ReverseOp(id, today) => Reverse(b, id, today).Done? ==> BooksAdvance(b, Reverse(b, id, today).value)
            case OpenPeriodOp(m) => OpenNew(b, m).Done? ==> BooksAdvance(b, OpenNew(b, m).value)
            case ClosePeriodOp(m) => Close(b, m).Done? ==> BooksAdvance(b, Close(b, m).value)
            case AccountOp(code, control) => BooksAdvance(b, SetAccount(b, code, control))
            case _ => true
  {
    hide Postable, TouchesControl, Swapped;
  }

  lemma DispatchAdvances(t: Tables, e: Event)
    requires Dispatch(t, e).Done?
    ensures var u := Dispatch(t, e).value;
            && BooksAdvance(t.books, u.books) && t.stock.moves <= u.stock.moves
            && u.ar == t.ar && u.orders == t.orders && u.outbox == t.outbox
  {
    hide PostEvent, Ship, BooksAdvance;
    if e.kind == OrderConfirmed {
      Unmoved(t.books);
    } else {
      PostEventAdvances(t.books, e);
      if e.kind == GoodsShipped { ShipDelivers(t.stock, e.lines, KeyOf(e)); }
    }
  }

  /** Publishing on top of changes to documents or orders. */
  lemma PublishAdvances(t: Tables, e: Event)
    requires Publish(t, e).Done?
    ensures var u := Publish(t, e).value;
            && BooksAdvance(t.books, u.books) && t.stock.moves <= u.stock.moves
            && u.ar == t.ar && u.orders == t.orders && t.outbox <= u.outbox
  {
    hide Dispatch, BooksAdvance;
    DispatchAdvances(t.(outbox := t.outbox + [e]), e);
  }

  lemma AllocateAdvances(t: Tables, p: Id, request: string, targets: seq<Target>)
    requires AllocateTo(t, p, request, targets).Done?
    ensures var u := AllocateTo(t, p, request, targets).value;
            u == t.(ar := u.ar) && t.ar.allocations <= u.ar.allocations
  {
    AllocateCases(t.ar, p, request, targets);
  }

  lemma ReceiveAdvances(t: Tables, id: Id, customer: Id, customers: Customers, reference: string, amount: int,
                        at: Date, targets: seq<Target>)
    requires Receive(t, id, customer, customers, reference, amount, at, targets).Done?
    ensures Advances(t, Receive(t, id, customer, customers, reference, amount, at, targets).value)
    ensures Receive(t, id, customer, customers, reference, amount, at, targets).value.orders == t.orders
  {
    hide Publish, AllocateTo, BooksAdvance;
    var ar := AddPayment(t.ar, id, customer, reference, amount).value;
    var e := Event(PaymentReceived, id, at, [], MICRO * amount);
    PublishAdvances(t.(ar := ar), e);
    if targets != [] { AllocateAdvances(Publish(t.(ar := ar), e).value, id, reference, targets); }
  }

  /** Services that change documents or orders and publish. */
  lemma PublishersAdvance(t: Tables, op: Op)
    requires op.ConfirmOp? || op.ShipOp? || op.IssueOp? || op.VoidInvoiceOp? || op.VoidPaymentOp?
    requires Perform(t, op).Done?
    ensures Advances(t, Perform(t, op).value)
  {
    hide Publish, BooksAdvance, Exposure, MarkConfirmed, Payload, CostTotal;
    match op {
      case ConfirmOp(id, catalog, customers, grace, at) =>
        PublishAdvances(t.(orders := MarkConfirmed(t.orders, id, catalog)),
                        Event(OrderConfirmed, id, at, [],
                              PriceForConfirm(t.orders, id, customers.Keys, catalog).value));
      case ShipOp(id, catalog, at) => PublishAdvances(t, ShipmentEvent(t.orders, id, catalog, at).value);
      case IssueOp(id, order, date, due, customers) =>
        var o := t.orders[order];
        var dueDay := DueDay(due, date, customers[o.customer]);
        var ar := AddInvoice(t.ar, id, order, o.customer, dueDay, o.total).value;
        PublishAdvances(t.(ar := ar), IssuedEvent(id, date, o.total));
      case VoidInvoiceOp(id, today) =>
        PublishAdvances(t.(ar := VoidInvoice(t.ar, id).value),
                        Event(InvoiceVoided, id, today, [], MICRO * t.ar.invoices[id].total));
      case VoidPaymentOp(id, today) =>
        PublishAdvances(t.(ar := VoidPayment(t.ar, id).value),
                        Event(PaymentVoided, id, today, [], MICRO * t.ar.payments[id].amount));
    }
  }

  /** No service call rewrites, removes or backdates posted history. */
  lemma StepAdvances(t: Tables, op: Op)
    ensures Advances(t, Apply(t, op))
  {
    hide BooksAdvance, Dispatch, Receive, AllocateTo, Exposure, Post, Reverse, Close, OpenNew, SetAccount;
    Unmoved(t.books);
    if Perform(t, op).Done? {
      match op {
        case ConfirmOp(_, _, _, _, _) => PublishersAdvance(t, op);
        case ShipOp(_, _, _) => PublishersAdvance(t, op);
        case IssueOp(_, _, _, _, _) => PublishersAdvance(t, op);
        case VoidInvoiceOp(_, _) => PublishersAdvance(t, op);
        case VoidPaymentOp(_, _) => PublishersAdvance(t, op);
        case ReceiveOp(id, customer, customers, reference, amount, at, targets) =>
          ReceiveAdvances(t, id, customer, customers, reference, amount, at, targets);
        case AllocateOp(id, request, targets) => AllocateAdvances(t, id, request, targets);
        case RedeliverOp(row) => DispatchAdvances(t, t.outbox[row]);
        case ManualEntryOp(_, _) => BookOpAdvances(t.books, op);
        case ReverseOp(_, _) => BookOpAdvances(t.books, op);
        case OpenPeriodOp(_) => BookOpAdvances(t.books, op);
        case ClosePeriodOp(_) => BookOpAdvances(t.books, op);
        case AccountOp(_, _) => BookOpAdvances(t.books, op);
        case _ =>
      }
    }
  }

  lemma AdvancesCompose(t: Tables, u: Tables, v: Tables)
    requires Advances(t, u) && Advances(u, v)
    ensures Advances(t, v)
  {
    forall k | |t.books.entries| <= k < |v.books.entries| ensures !ClosedIn(t.books, MonthOf(v.books.entries[k].date)) {
      if k < |u.books.entries| { assert v.books.entries[k] == u.books.entries[k]; }
    }
  }

  /** Over every run: posted entries, stock moves, allocations and outbox rows stay as they
      are, closed months stay closed, and no run adds an entry to a month closed before. */
  lemma {:induction false} HistoryIsAppendOnly(t: Tables, ops: seq<Op>)
    ensures Advances(t, Run(t, ops))
    decreases |ops|
  {
    hide Apply;
    if ops == [] {
      Unmoved(t.books);
    } else {
      StepAdvances(t, ops[0]);
      HistoryIsAppendOnly(Apply(t, ops[0]), ops[1..]);
      AdvancesCompose(t, Apply(t, ops[0]), Run(Apply(t, ops[0]), ops[1..]));
    }
  }

  // ---------------------------------------------------------------------------
  // The life of an order
  // ---------------------------------------------------------------------------

  /** The same goods; lines with a hand-set price are untouched. */
  ghost predicate SameGoods(x: seq<OrderLine>, y: seq<OrderLine>) {
    |x| == |y| && forall k :: 0 <= k < |x| ==>
      && y[k].product == x[k].product && y[k].qty == x[k].qty && y[k].override == x[k].override
      && (x[k].override ==> y[k] == x[k])
  }

  /** What may become of an order in one step: a draft may be edited, confirmed or
      cancelled, a confirmed order shipped or cancelled; the rest is final. */
  ghost predicate Follows(x: Order, y: Order) {
    || y == x
    || (x.status == Draft && y.status == Draft && y.id == x.id && y.customer == x.customer)
    || (x.status == Draft && y.status == Confirmed && x.lines != [] && SameGoods(x.lines, y.lines)
        && y == x.(status := Confirmed, lines := y.lines, total := y.total))
    || (x.status == Confirmed && y == x.(status := Shipped, shippedDay := y.shippedDay))
    || ((x.status == Draft || x.status == Confirmed) && y == x.(status := Cancelled))
  }

  ghost predicate OrdersFollow(x: map<Id, Order>, y: map<Id, Order>) {
    forall o :: o in x ==> o in y && Follows(x[o], y[o])
  }

  /** Every service call moves orders along their life cycle only, and loses none. */
  lemma OrdersLive(t: Tables, op: Op)
    ensures OrdersFollow(t.orders, Apply(t, op).orders)
  {
    hide Publish, Receive, AllocateTo, Exposure, Issue, Void, VoidReceipt, Stored, Dispatch;
    if Perform(t, op).Done? {
      match op {
        case ConfirmOp(id, catalog, customers, grace, at) =>
          PublishAdvances(t.(orders := MarkConfirmed(t.orders, id, catalog)),
                          Event(OrderConfirmed, id, at, [],
                              PriceForConfirm(t.orders, id, customers.Keys, catalog).value));
        case ShipOp(id, catalog, at) => PublishAdvances(t, ShipmentEvent(t.orders, id, catalog, at).value);
        case ReceiveOp(id, customer, customers, reference, amount, at, targets) =>
          ReceiveAdvances(t, id, customer, customers, reference, amount, at, targets);
        case IssueOp(_, _, _, _, _) => InvoicingLeavesOrders(t, op);
        case VoidInvoiceOp(_, _) => InvoicingLeavesOrders(t, op);
        case VoidPaymentOp(id, today) => VoidReceiptFrame(t, id, today);
        case AllocateOp(id, request, targets) => AllocateAdvances(t, id, request, targets);
        case RedeliverOp(row) => DispatchAdvances(t, t.outbox[row]);
        case _ =>
      }
    }
  }

  lemma InvoicingLeavesOrders(t: Tables, op: Op)
    requires (op.IssueOp? || op.VoidInvoiceOp?) && Perform(t, op).Done?
    ensures Perform(t, op).value.orders == t.orders
  {
    hide Publish;
    match op {
      case IssueOp(id, order, date, due, customers) =>
        var o := t.orders[order];
        var dueDay := DueDay(due, date, customers[o.customer]);
        var ar := AddInvoice(t.ar, id, order, o.customer, dueDay, o.total).value;
        PublishAdvances(t.(ar := ar), IssuedEvent(id, date, o.total));
      case VoidInvoiceOp(id, today) =>
        PublishAdvances(t.(ar := VoidInvoice(t.ar, id).value),
                        Event(InvoiceVoided, id, today, [], MICRO * t.ar.invoices[id].total));
    }
  }

  /** Over every run a shipped or cancelled order never changes again, and a confirmed one
      keeps its customer, lines and total. */
  lemma {:induction false} OrdersSettle(t: Tables, ops: seq<Op>, o: Id)
    requires o in t.orders && t.orders[o].status != Draft
    ensures o in Run(t, ops).orders
    ensures t.orders[o].status != Confirmed ==> Run(t, ops).orders[o] == t.orders[o]
    ensures var x, y := t.orders[o], Run(t, ops).orders[o];
            y.status != Draft && y.customer == x.customer && y.lines == x.lines && y.total == x.total
    decreases |ops|
  {
    hide Apply, SameGoods;
    if ops != [] {
      OrdersLive(t, ops[0]);
      OrdersSettle(Apply(t, ops[0]), ops[1..], o);
    }
  }
}
