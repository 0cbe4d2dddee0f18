/** The services of one company over their shared, mutable tables. Every service call is
    one transaction: it either reaches the state the kernel prescribes or leaves no trace. */
module Company {
  import opened Common
  import opened Decimals
  import opened Sums
  import opened Ledger
  import opened Posting
  import opened Inventory
  import opened Fingerprint
  import opened Receivables
  import opened Sales
  import opened Credit
  import opened Kernel

  // ---------------------------------------------------------------------------
  // The subscribers of the bus
  // ---------------------------------------------------------------------------

  datatype Handler = MoveStock | PostEntry

  /** The wiring made at start-up, in subscription order: move the goods, then account
      for them. `OrderConfirmed` is registered without a subscriber. */
  const SUBSCRIBERS: map<EventType, seq<Handler>> := map[
    OrderConfirmed := [],
    GoodsShipped := [MoveStock, PostEntry],
    InvoiceIssued := [PostEntry],
    InvoiceVoided := [PostEntry],
    PaymentReceived := [PostEntry],
    PaymentVoided := [PostEntry]
  ]

  function SubscribersOf(kind: EventType): seq<Handler> {
    if kind in SUBSCRIBERS then SUBSCRIBERS[kind] else []
  }

  function Deliver(t: Tables, h: Handler, e: Event): Outcome<Tables> {
    match h
    case MoveStock => WithStock(t, Ship(t.stock, e.lines, KeyOf(e)))
    case PostEntry => WithBooks(t, PostEvent(t.books, e))
  }

  /** Handlers one after the other; the first exception ends the dispatch. */
  function DeliverAll(t: Tables, handlers: seq<Handler>, e: Event): Outcome<Tables>
    decreases |handlers|
  {
    if handlers == [] then Done(t) else
    match Deliver(t, handlers[0], e)
    case Failed(error) => Failed(error)
    case Done(next) => DeliverAll(next, handlers[1..], e)
  }

  /** With this wiring, walking the subscriber list is the kernel's dispatch. */
  lemma WiringIsDispatch(t: Tables, e: Event)
    ensures DeliverAll(t, SubscribersOf(e.kind), e) == Dispatch(t, e)
  {
    hide Ship, PostEvent, DeliverAll;
    NobodyIsTold(t, e);
    OnlyOneIsTold(t, PostEntry, e);
    if e.kind == GoodsShipped {
      FirstIsTold(t, [MoveStock, PostEntry], e);
      if Deliver(t, MoveStock, e).Done? { OnlyOneIsTold(Deliver(t, MoveStock, e).value, PostEntry, e); }
    }
  }

  lemma NobodyIsTold(t: Tables, e: Event)
    ensures DeliverAll(t, [], e) == Done(t)
  {
  }

  lemma FirstIsTold(t: Tables, handlers: seq<Handler>, e: Event)
    requires handlers != []
    ensures DeliverAll(t, handlers, e) ==
              match Deliver(t, handlers[0], e)
              case Failed(error) => Failed(error)
              case Done(next) => DeliverAll(next, handlers[1..], e)
  {
  }

  lemma OnlyOneIsTold(t: Tables, h: Handler, e: Event)
    ensures DeliverAll(t, [h], e) == Deliver(t, h, e)
  {
    hide Deliver;
    FirstIsTold(t, [h], e);
    assert [h][1..] == [];
  }

  // ---------------------------------------------------------------------------
  // The exposure query
  // ---------------------------------------------------------------------------

  method SumUninvoiced(orders: map<Id, Order>, invoices: map<Id, Invoice>, customer: Id) returns (total: int)
    ensures total == SumBy(orders, UninvoicedFor(invoices, customer))
  {
    total := 0;
    var rest := orders;
    while rest != map[]
      invariant total + SumBy(rest, UninvoicedFor(invoices, customer)) ==
                  SumBy(orders, UninvoicedFor(invoices, customer))
      decreases |rest|
    {
      var k :| k in rest;
      SumByRemove(rest, UninvoicedFor(invoices, customer), k);
      var order := rest[k];
      var counts := order.customer == customer && (order.status == Confirmed || order.status == Shipped);
      if counts && !exists i :: i in invoices && invoices[i].order == order.id && invoices[i].status != InvoiceVoid {
        total := total + order.total;
      }
      rest := rest - {k};
    }
  }

  method SumOpenInvoices(invoices: map<Id, Invoice>, customer: Id) returns (total: int)
    ensures total == SumBy(invoices, OpenFor(customer))
  {
    total := 0;
    var rest := invoices;
    while rest != map[]
      invariant total + SumBy(rest, OpenFor(customer)) == SumBy(invoices, OpenFor(customer))
      decreases |rest|
    {
      var k :| k in rest;
      SumByRemove(rest, OpenFor(customer), k);
      if rest[k].customer == customer && rest[k].status != InvoiceVoid {
        total := total + (rest[k].total - rest[k].settled);
      }
      rest := rest - {k};
    }
  }

  // ---------------------------------------------------------------------------
  // The services
  // ---------------------------------------------------------------------------

  class Services {
    const ledger: LedgerService
    const inventory: InventoryService
    const receivables: ReceivablesService
    const sales: SalesService
    var outbox: seq<Event>

    ghost function State(): Tables
      reads this, ledger, inventory, receivables, sales
    {
      Tables(ledger.State(), inventory.State(), receivables.State(), sales.orders, outbox)
    }

    constructor (chart: map<Code, bool>)
      ensures State() == Empty(chart)
      ensures fresh(ledger) && fresh(inventory) && fresh(receivables) && fresh(sales)
    {
      ledger := new LedgerService(chart);
      inventory := new InventoryService();
      receivables := new ReceivablesService();
      sales := new SalesService();
      outbox := [];
    }

    /** A copy of every table, which is what a rollback returns to. */
    method Snapshot() returns (saved: Tables)
      ensures saved == State()
    {
      saved := Tables(
        Books(ledger.chart, ledger.periods, ledger.entries, ledger.nextNo),
        Stock(inventory.onHand, inventory.moves),
        Ar(receivables.invoices, receivables.payments, receivables.commands, receivables.allocations),
        sales.orders, outbox);
    }

    method Rollback(saved: Tables)
      modifies this, ledger, inventory, receivables, sales
      ensures State() == saved
    {
      ledger.chart, ledger.periods := saved.books.chart, saved.books.periods;
      ledger.entries, ledger.nextNo := saved.books.entries, saved.books.nextNo;
      inventory.onHand, inventory.moves := saved.stock.onHand, saved.stock.moves;
      receivables.invoices, receivables.payments := saved.ar.invoices, saved.ar.payments;
      receivables.commands, receivables.allocations := saved.ar.commands, saved.ar.allocations;
      sales.orders, outbox := saved.orders, saved.outbox;
    }

    /** Runs the subscribers in order. After an exception the tables are in whatever
        state it left; the transaction's owner rolls them back. */
    method DispatchEvent(e: Event) returns (error: Option<Error>)
      modifies ledger, inventory
      ensures match Dispatch(old(State()), e)
              case Done(after) => error == None && State() == after
              case Failed(cause) => error == Some(cause)
    {
      WiringIsDispatch(State(), e);
      var todo := SubscribersOf(e.kind);
      while todo != []
        invariant DeliverAll(State(), todo, e) == DeliverAll(old(State()), SubscribersOf(e.kind), e)
        decreases |todo|
      {
        match todo[0] {
          case MoveStock => error := inventory.HandleGoodsShipped(e.lines, KeyOf(e));
          case PostEntry => error := HandlePostingEvent(ledger, e);
        }
        if error.Some? { return; }
        todo := todo[1..];
      }
      return None;
    }

    method PublishEvent(e: Event) returns (error: Option<Error>)
      modifies this`outbox, ledger, inventory
      ensures match Publish(old(State()), e)
              case Done(after) => error == None && State() == after
              case Failed(cause) => error == Some(cause)
    {
      outbox := outbox + [e];
      error := DispatchEvent(e);
    }

    /** The replay entry point: no outbox row, one transaction of its own. */
    method Redispatch(e: Event) returns (error: Option<Error>)
      modifies this, ledger, inventory, receivables, sales
      ensures match Dispatch(old(State()), e)
              case Done(after) => error == None && State() == after
              case Failed(cause) => error == Some(cause) && State() == old(State())
    {
      var saved := Snapshot();
      error := DispatchEvent(e);
      if error.Some? { Rollback(saved); }
    }

    method CheckCreditLimit(customer: Id, exact: int, limit: int, grace: int) returns (ok: bool)
      ensures ok <==> PassesLimit(limit, grace, Exposure(State().orders, State().ar.invoices, customer), exact)
    {
      if limit == 0 { return true; }
      var uninvoiced := SumUninvoiced(sales.orders, receivables.invoices, customer);
      var open := SumOpenInvoices(receivables.invoices, customer);
      return MICRO * uninvoiced + MICRO * open + exact <= MICRO * (limit + grace);
    }

    method ConfirmOrder(id: Id, catalog: Catalog, customers: Customers, grace: int, at: Date)
      returns (error: Option<Error>)
      modifies this, ledger, inventory, receivables, sales
      ensures match Confirm(old(State()), id, catalog, customers, grace, at)
              case Done(after) => error == None && State() == after
              case Failed(cause) => error == Some(cause) && State() == old(State())
    {
      if id !in sales.orders { return Some(NotFound); }
      var order := sales.orders[id];
      if order.status != Draft { return Some(Conflict); }
      if order.lines == [] { return Some(Rejected); }
      if order.customer !in customers { return Some(Rejected); }
      if exists l :: l in order.lines && l.product !in catalog { return Some(Rejected); }
      var repriced, newTotal := SalesService.Reprice(order.lines, catalog);
      if newTotal <= 0 { return Some(Rejected); }
      var ok := CheckCreditLimit(order.customer, newTotal, customers[order.customer].limit, grace);
      if !ok { return Some(Conflict); }
      sales.orders := sales.orders[id := order.(lines := repriced, total := Stored(newTotal), status := Confirmed)];
      error := PublishEvent(Event(OrderConfirmed, id, at, [], newTotal));
    }

    method ShipConfirmed(id: Id, catalog: Catalog, at: Date) returns (error: Option<Error>)
      modifies this, ledger, inventory, receivables, sales
      ensures match ShipOrder(old(State()), id, catalog, at)
              case Done(after) => error == None && State() == after
              case Failed(cause) => error == Some(cause) && State() == old(State())
    {
      if id !in sales.orders { return Some(NotFound); }
      var order := sales.orders[id];
      if order.status != Confirmed { return Some(Conflict); }
      if exists l :: l in order.lines && l.product !in catalog { return Some(Rejected); }
      var payload, totalCost := SalesService.CollectPayload(order.lines, catalog);
      var saved := Snapshot();
      error := PublishEvent(Event(GoodsShipped, id, at, payload, totalCost));
      if error.Some? {
        Rollback(saved);
      } else {
        sales.orders := sales.orders[id := order.(status := Shipped, shippedDay := at.day)];
      }
    }

    method CreateInvoice(id: Id, orderId: Id, date: Date, due: Option<int>, customers: Customers)
      returns (error: Option<Error>)
      modifies this, ledger, inventory, receivables, sales
      ensures match Issue(old(State()), id, orderId, date, due, customers)
              case Done(after) => error == None && State() == after
              case Failed(cause) => error == Some(cause) && State() == old(State())
    {
      hide Dispatch;
      if orderId !in sales.orders { return Some(Rejected); }
      var order := sales.orders[orderId];
      if order.status != Shipped { return Some(Rejected); }
      if order.currency != FUNCTIONAL_CURRENCY || !Billable(customers, order.customer) { return Some(Rejected); }
      if date.day < order.shippedDay { return Some(Rejected); }
      var dueDay := DueDay(due, date, customers[order.customer]);
      if dueDay < date.day { return Some(Rejected); }
      var saved := Snapshot();
      error := receivables.InsertInvoice(id, orderId, order.customer, dueDay, order.total);
      if error.Some? { return; }
      error := PublishEvent(Event(InvoiceIssued, id, date, [], MICRO * order.total));
      if error.Some? { Rollback(saved); }
    }

    method VoidIssued(id: Id, today: Date) returns (error: Option<Error>)
      modifies this, ledger, inventory, receivables, sales
      ensures match Void(old(State()), id, today)
              case Done(after) => error == None && State() == after
              case Failed(cause) => error == Some(cause) && State() == old(State())
    {
      var saved := Snapshot();
      error := receivables.MarkInvoiceVoid(id);
      if error.Some? { return; }
      error := PublishEvent(Event(InvoiceVoided, id, today, [], MICRO * receivables.invoices[id].total));
      if error.Some? { Rollback(saved); }
    }

    method CreatePayment(id: Id, customer: Id, customers: Customers, reference: string, amount: int, at: Date,
                         targets: seq<Target>)
      returns (error: Option<Error>)
      modifies this, ledger, inventory, receivables, sales
      ensures match Receive(old(State()), id, customer, customers, reference, amount, at, targets)
              case Done(after) => error == None && State() == after
              case Failed(cause) => error == Some(cause) && State() == old(State())
    {
      if !Billable(customers, customer) { return Some(Rejected); }
      var saved := Snapshot();
      error := receivables.InsertPayment(id, customer, reference, amount);
      if error.Some? { return; }
      error := PublishEvent(Event(PaymentReceived, id, at, [], MICRO * amount));
      if error == None && targets != [] {
        error := receivables.AllocatePaymentCore(id, reference, targets);
      }
      if error.Some? { Rollback(saved); }
    }

    method VoidReceived(id: Id, today: Date) returns (error: Option<Error>)
      modifies this, ledger, inventory, receivables, sales
      ensures match VoidReceipt(old(State()), id, today)
              case Done(after) => error == None && State() == after
              case Failed(cause) => error == Some(cause) && State() == old(State())
    {
      var saved := Snapshot();
      error := receivables.MarkPaymentVoid(id);
      if error.Some? { return; }
      error := PublishEvent(Event(PaymentVoided, id, today, [], MICRO * receivables.payments[id].amount));
      if error.Some? { Rollback(saved); }
    }
  }
}
