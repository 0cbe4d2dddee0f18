/** One order taken all the way from draft to paid, over a price rise and onto the edge of
    its customer's credit limit: the theorems of this project speak about states in which
    every service has succeeded. */
module Walkthrough {
  import opened Common
  import opened Decimals
  import opened Sums
  import opened Ledger
  import opened Posting
  import opened Inventory
  import opened Fingerprint
  import opened Receivables
  import opened Sales
  import opened OrderSums
  import opened Credit
  import opened LedgerEffects
  import opened ReceivableEffects
  import opened Kernel
  import opened Reachable

  const CHART: map<Code, bool> :=
    map[CASH := false, RECEIVABLE := true, INVENTORY := false, REVENUE := false, COGS := false]
  const MAY: Month := Month(2026, 5)
  const DAY: Date := Date(100, 2026, 5)

  const SKU: Id := 7
  const QTY: int := 2 * MICRO
  const OLD_PRICE: int := 4 * MICRO
  const PRICE: int := 5 * MICRO
  const COST: int := 3 * MICRO
  const OLD_TOTAL: nat := 8 * MICRO
  const TOTAL: nat := 10 * MICRO
  const COST_TOTAL: nat := 6 * MICRO

  function OldPrices(): Catalog { map[SKU := Product(OLD_PRICE, COST)] }

  function Prices(): Catalog { map[SKU := Product(PRICE, COST)] }

  /** One customer: thirty days to pay, and a limit that the order will just exhaust. */
  function Buyers(): Customers { map[9 := Customer(FUNCTIONAL_CURRENCY, 30, TOTAL)] }

  const DRAFT_LINE := OrderLine(SKU, QTY, OLD_PRICE, false, OLD_TOTAL)
  const FINAL_LINE := OrderLine(SKU, QTY, PRICE, false, TOTAL)

  const DRAFTED_ORDER := Order(1, 9, FUNCTIONAL_CURRENCY, Draft, OLD_TOTAL, [DRAFT_LINE], 0)

  function OrderOf(status: OrderStatus, day: int): Order {
    Order(1, 9, FUNCTIONAL_CURRENCY, status, TOTAL, [FINAL_LINE], day)
  }

  function Opened(): Books { Books(CHART, map[MAY := Open], [], map[]) }

  lemma DraftLine()
    ensures BuiltLines([LineIn(SKU, QTY, None)], OldPrices()) == [DRAFT_LINE]
    ensures Stored(BuiltTotal([LineIn(SKU, QTY, None)], OldPrices())) == OLD_TOTAL
  {
    var ins := [LineIn(SKU, QTY, None)];
    assert ins[..0] == [];
    assert QTY * OLD_PRICE == MICRO * OLD_TOTAL;
    GridPointsAreFixed(OLD_TOTAL);
  }

  lemma FinalLine()
    ensures Stored(QTY * PRICE) == TOTAL
    ensures Repriced([DRAFT_LINE], Prices()) == [FINAL_LINE] && ExactTotal([DRAFT_LINE], Prices()) == QTY * PRICE
  {
    assert [DRAFT_LINE][..0] == [];
    assert QTY * PRICE == MICRO * TOTAL;
    GridPointsAreFixed(TOTAL);
  }

  lemma ShipmentLine()
    ensures Payload([FINAL_LINE], Prices()) == [ShippedLine(SKU, QTY, COST)]
    ensures CostTotal([FINAL_LINE], Prices()) == QTY * COST == MICRO * COST_TOTAL
    ensures Cost([FINAL_LINE], Prices()) == QTY * COST && RoundHalfEven(QTY * COST) == COST_TOTAL
    ensures QtyIn([FINAL_LINE], SKU) == QTY
  {
    var lines := [FINAL_LINE];
    assert lines[..0] == [] && lines[1..] == [];
    CostIsTotal(lines, Prices());
    GridPointsAreFixed(COST_TOTAL);
    assert QtyIn(lines, SKU) == QTY + SumOf([], QtyOf(SKU));
  }

  const NOBODY_OWES := Ar(map[], map[], map[], [])

  function Drafted(): Tables { Tables(Opened(), Stock(map[], []), NOBODY_OWES, map[1 := DRAFTED_ORDER], []) }

  function Stocked(): Tables { Drafted().(stock := Stock(map[SKU := QTY], [Move(SKU, QTY, None)])) }

  function ConfirmedEvent(): Event { Event(OrderConfirmed, 1, DAY, [], QTY * PRICE) }

  function ReadyToShip(): Tables { Stocked().(orders := map[1 := OrderOf(Confirmed, 0)], outbox := [ConfirmedEvent()]) }

  const DRAFTING: seq<Op> := [OpenPeriodOp(MAY), CreateOrderOp(1, 9, Buyers(), [LineIn(SKU, QTY, None)], OldPrices())]
  const HANDING_OVER: seq<Op> := [AdjustOp(SKU, QTY), ConfirmOp(1, Prices(), Buyers(), 0, DAY)]

  lemma RunTwo(t: Tables, a: Op, b: Op)
    ensures Run(t, [a, b]) == Apply(Apply(t, a), b)
  {
    hide Apply;
    assert [a, b][1..] == [b] && [b][1..] == [];
    assert Run(Apply(t, a), [b]) == Run(Apply(Apply(t, a), b), []);
  }

  lemma DraftIsMade()
    ensures Run(Empty(CHART), DRAFTING) == Drafted()
  {
    DraftLine();
    RunTwo(Empty(CHART), DRAFTING[0], DRAFTING[1]);
    var withPeriod := Empty(CHART).(books := Opened());
    assert Perform(Empty(CHART), DRAFTING[0]) == Done(withPeriod);
    assert Perform(withPeriod, DRAFTING[1]) == Done(Drafted());
  }

  lemma NothingIsOwed()
    ensures Exposure(Stocked().orders, Stocked().ar.invoices, 9) == 0
  {
    SumByZero(Stocked().orders, UninvoicedFor(map[], 9));
    SumByZero(Stocked().ar.invoices, OpenFor(9));
  }

  lemma OrderIsConfirmed()
    ensures Run(Drafted(), HANDING_OVER) == ReadyToShip()
  {
    RunTwo(Drafted(), HANDING_OVER[0], HANDING_OVER[1]);
    assert [] + [Move(SKU, QTY, None)] == [Move(SKU, QTY, None)];
    assert ApplyMove(Drafted().stock, SKU, QTY, None) == Done(Stocked().stock);
    assert Perform(Drafted(), HANDING_OVER[0]) == Done(Stocked());
    ConfirmationPasses();
  }

  /** The exact total takes the exposure to the limit, not past it. */
  lemma ConfirmationPasses()
    ensures Perform(Stocked(), HANDING_OVER[1]) == Done(ReadyToShip())
  {
    hide Exposure;
    FinalLine();
    NothingIsOwed();
    assert MarkConfirmed(Stocked().orders, 1, Prices()) == ReadyToShip().orders;
    assert PriceForConfirm(Stocked().orders, 1, {9}, Prices()) == Done(QTY * PRICE);
    assert Stocked().outbox + [ConfirmedEvent()] == [ConfirmedEvent()];
  }

  lemma StockedIsReached()
    ensures Reached(Stocked())
  {
    hide Run, Reached;
    DraftIsMade();
    IsReached(Drafted(), DRAFTING);
    ReachedStep(Drafted(), HANDING_OVER[0]);
    StockIsTaken();
  }

  lemma StockIsTaken()
    ensures Apply(Drafted(), HANDING_OVER[0]) == Stocked()
  {
    assert [] + [Move(SKU, QTY, None)] == [Move(SKU, QTY, None)];
  }

  /** In a reachable state an order was drafted at the old list price, and the list price has
      risen since. Confirming it takes the new price, and its total exhausts the limit to the
      last unit. */
  lemma ConfirmedAtTheNewPrice()
    ensures Reached(Stocked()) && Stocked().orders[1].lines == [OrderLine(SKU, QTY, OLD_PRICE, false, OLD_TOTAL)]
    ensures Perform(Stocked(), ConfirmOp(1, Prices(), Buyers(), 0, DAY)).Done?
    ensures var after := Perform(Stocked(), ConfirmOp(1, Prices(), Buyers(), 0, DAY)).value;
            && Reached(after) && after.orders[1].lines == [OrderLine(SKU, QTY, PRICE, false, TOTAL)]
            && after.orders[1].total == TOTAL && ExposureIn(after, 9) == TOTAL == Buyers()[9].limit
  {
    hide Run, Reached, Perform, Exposure;
    StockedIsReached();
    ConfirmationPasses();
    ReachedStep(Stocked(), HANDING_OVER[1]);
    EverythingIsOwed();
  }

  lemma EverythingIsOwed()
    ensures ExposureIn(ReadyToShip(), 9) == TOTAL
  {
    var orders: map<Id, Order> := map[];
    SumByUpdate(orders, UninvoicedFor(map[], 9), 1, OrderOf(Confirmed, 0));
    assert orders[1 := OrderOf(Confirmed, 0)] == ReadyToShip().orders;
    SumByZero(ReadyToShip().ar.invoices, OpenFor(9));
  }

  lemma ReadyIsReached()
    ensures ReadyToShip() == Run(Empty(CHART), DRAFTING + HANDING_OVER)
  {
    hide Run;
    DraftIsMade();
    OrderIsConfirmed();
    RunConcat(Empty(CHART), DRAFTING, HANDING_OVER);
  }

  function TheShipment(): Event { Event(GoodsShipped, 1, DAY, [ShippedLine(SKU, QTY, COST)], QTY * COST) }

  lemma ShipmentIsThis()
    ensures ShipmentEvent(ReadyToShip().orders, 1, Prices(), DAY) == Done(TheShipment())
  {
    ShipmentLine();
  }

  /** Every account shows what was billed, collected and shipped so far, and no more. */
  ghost predicate AccountsShow(b: Books, billed: int, collected: int) {
    forall a :: Balance(b.entries, a) == Shows(a, billed, collected, COST_TOTAL)
  }

  ghost predicate JustShipped(t: Tables) {
    && Reached(t) && t.orders == map[1 := OrderOf(Shipped, 100)] && t.ar == NOBODY_OWES
    && t.outbox == [ConfirmedEvent(), TheShipment()] && OnHand(t.stock.onHand, SKU) == 0
    && t.books.chart == CHART && PeriodOpen(t.books, DAY)
    && AccountsShow(t.books, 0, 0)
  }

  /** Two pieces leave stock, and their cost, three apiece, moves between the accounts. */
  lemma OrderShips()
    ensures Perform(ReadyToShip(), ShipOp(1, Prices(), DAY)).Done?
    ensures JustShipped(Apply(ReadyToShip(), ShipOp(1, Prices(), DAY)))
  {
    hide Run, Reached, Dispatch, Cost, QtyIn, ShipmentEvent, RoundHalfEven, OnHand, PeriodOpen, Balance, AccountsShow;
    var t := ReadyToShip();
    ShipmentGoes();
    ShipmentLine();
    GoodsCover();
    ReachedStep(t, ShipOp(1, Prices(), DAY));
    ShippingMovesAndPosts(t, 1, Prices(), DAY, SKU, 0);
    CostIsBooked();
    ShipmentIsThis();
    MayIsOpen(Apply(t, ShipOp(1, Prices(), DAY)).books);
    BooksKeepSettings(t.(outbox := t.outbox + [TheShipment()]), TheShipment());
  }

  lemma CostIsBooked()
    ensures AccountsShow(Apply(ReadyToShip(), ShipOp(1, Prices(), DAY)).books, 0, 0)
  {
    hide Run, Reached, ShipOrder, Cost, QtyIn, RoundHalfEven, OnHand, Balance;
    var t := ReadyToShip();
    ShipmentGoes();
    ShipmentLine();
    GoodsCover();
    assert t.orders[1].lines == [FINAL_LINE];
    forall a ensures Balance(Apply(t, ShipOp(1, Prices(), DAY)).books.entries, a) == Shows(a, 0, 0, COST_TOTAL) {
      ShippingMovesAndPosts(t, 1, Prices(), DAY, SKU, a);
    }
  }

  lemma BooksKeepSettings(t: Tables, e: Event)
    requires Dispatch(t, e).Done?
    ensures var after := Dispatch(t, e).value;
            && after.ar == t.ar && after.orders == t.orders && after.outbox == t.outbox
            && after.books.chart == t.books.chart && after.books.periods == t.books.periods
  {
    hide PostEvent, Ship;
    if e.kind != OrderConfirmed { DeliveryShape(t.books, e); }
  }

  lemma ShipmentGoes()
    ensures Reached(ReadyToShip()) && Perform(ReadyToShip(), ShipOp(1, Prices(), DAY)).Done?
  {
    hide Run, Reached, Perform, Cost, InStock, CanPostCost;
    var t := ReadyToShip();
    ReadyIsReached();
    IsReached(t, DRAFTING + HANDING_OVER);
    ShipmentLine();
    GoodsCover();
    ShipsIffPossible(t, 1, Prices(), DAY);
  }

  lemma MayIsOpen(b: Books)
    ensures b.periods == Opened().periods ==> PeriodOpen(b, DAY)
  {
  }

  lemma GoodsCover()
    ensures InStock(ReadyToShip().stock.onHand, [FINAL_LINE])
    ensures CanPostCost(Opened(), QTY * COST, DAY)
    ensures OnHand(ReadyToShip().stock.onHand, SKU) == QTY
    ensures forall a :: Balance(ReadyToShip().books.entries, a) == 0
  {
    ShipmentLine();
  }

  // ---------------------------------------------------------------------------
  // Redelivery may abort
  // ---------------------------------------------------------------------------

  lemma ShipmentIsFirst()
    ensures FirstProduct(TheShipment().lines) == SKU && Demand(TheShipment().lines, SKU) == QTY
  {
    var lines := [ShippedLine(SKU, QTY, COST)];
    assert lines[..0] == [];
    assert exists l :: l in lines && l.product == FirstProduct(lines);
  }

  /** One and the same recorded shipment, redelivered in three reachable states: it aborts
      while its goods are out of stock, is skipped once they are restocked, and aborts again
      when the stock is drawn down afterwards. */
  lemma RedeliveryMayAbort()
    ensures var shipped := Apply(ReadyToShip(), ShipOp(1, Prices(), DAY));
            var restocked := Apply(shipped, AdjustOp(SKU, QTY));
            var drawnDown := Apply(restocked, AdjustOp(SKU, -1));
            && Reached(shipped) && Perform(shipped, RedeliverOp(1)).Failed?
            && Reached(restocked) && Perform(restocked, RedeliverOp(1)).Done?
            && Reached(drawnDown) && Perform(drawnDown, RedeliverOp(1)).Failed?
  {
    hide Run, Reached, Dispatch, ShipOrder, FirstProduct, Demand, PeriodOpen;
    var shipped := Apply(ReadyToShip(), ShipOp(1, Prices(), DAY));
    OrderShips();
    ShipmentIsFirst();
    RedeliversIff(shipped, 1);
    var restocked := Apply(shipped, AdjustOp(SKU, QTY));
    AdjustmentMoves(shipped, QTY);
    RedeliversIff(restocked, 1);
    AdjustmentMoves(restocked, -1);
    RedeliversIff(Apply(restocked, AdjustOp(SKU, -1)), 1);
  }

  lemma AdjustmentMoves(t: Tables, delta: int)
    requires Reached(t) && delta != 0 && OnHand(t.stock.onHand, SKU) + delta >= 0
    ensures var after := Apply(t, AdjustOp(SKU, delta));
            && Reached(after) && after.outbox == t.outbox && after.books == t.books
            && OnHand(after.stock.onHand, SKU) == OnHand(t.stock.onHand, SKU) + delta
  {
    hide Reached;
    ReachedStep(t, AdjustOp(SKU, delta));
  }

  lemma IsReached(t: Tables, ops: seq<Op>)
    requires t == Run(Empty(CHART), ops)
    ensures Reached(t)
  {
  }

  // ---------------------------------------------------------------------------
  // Invoiced and paid
  // ---------------------------------------------------------------------------

  const OPEN_INVOICE := Invoice(1, 9, 130, TOTAL, 0, Unsettled)

  function Issuing(): Op { IssueOp(1, 1, DAY, None, Buyers()) }

  function Paying(): Op { ReceiveOp(1, 9, Buyers(), "wire", TOTAL, DAY, [Target(1, TOTAL)]) }

  ghost predicate Invoiced(t: Tables) {
    && Reached(t) && t.orders == map[1 := OrderOf(Shipped, 100)]
    && t.ar == NOBODY_OWES.(invoices := map[1 := OPEN_INVOICE])
    && t.books.chart == CHART && PeriodOpen(t.books, DAY)
    && AccountsShow(t.books, TOTAL, 0)
  }

  lemma OrderIsInvoiced(t: Tables)
    requires JustShipped(t)
    ensures Invoiced(Apply(t, Issuing()))
  {
    hide Reached, Issue, Balance, Net;
    IssuesIffPossible(t, 1, 1, DAY, None, Buyers());
    IssueWrites(t, 1, 1, DAY, None, Buyers());
    ReachedStep(t, Issuing());
  }

  ghost predicate PaidUp(t: Tables) {
    && Reached(t) && t.orders == map[1 := OrderOf(Shipped, 100)]
    && t.ar.invoices == map[1 := OPEN_INVOICE.(settled := TOTAL, status := Paid)]
    && t.ar.payments == map[1 := Payment(9, "wire", TOTAL, TOTAL, Received)]
    && AccountsShow(t.books, TOTAL, TOTAL)
  }

  lemma InvoiceIsPaid(t: Tables)
    requires Invoiced(t)
    ensures PaidUp(Apply(t, Paying()))
  {
    hide Reached, Receive, Balance, Net, Written, WellFormed, Payable, PeriodOpen, NoTwice;
    var targets := [Target(1, TOTAL)];
    WholeTotalIsAsked(t);
    ReceivesIff(t, 1, 9, Buyers(), "wire", TOTAL, DAY, targets);
    ReceiveWrites(t, 1, 9, Buyers(), "wire", TOTAL, DAY, targets);
    ReachedStep(t, Paying());
    TotalIsWritten(Apply(t, Paying()).ar);
  }

  lemma WholeTotalIsAsked(t: Tables)
    requires Invoiced(t)
    ensures var targets := [Target(1, TOTAL)];
            && WellFormed(targets) && Payable(t.ar.invoices, 9, targets)
            && SumOf(targets, Asked) == TOTAL == SumOf(targets, AskedOf(1))
            && BooksCarry(t.books, {1000, 1100}, DAY)
  {
    hide Reached, Balance, PeriodOpen;
    var targets := [Target(1, TOTAL)];
    assert targets[1..] == [];
    assert SumOf(targets, Asked) == TOTAL + SumOf([], Asked);
    assert SumOf(targets, AskedOf(1)) == TOTAL + SumOf([], AskedOf(1));
  }

  lemma TotalIsWritten(after: Ar)
    requires SumOf([Target(1, TOTAL)], Asked) == TOTAL == SumOf([Target(1, TOTAL)], AskedOf(1))
    requires Written(NOBODY_OWES.(invoices := map[1 := OPEN_INVOICE],
                                  payments := map[][1 := Payment(9, "wire", TOTAL, 0, Received)]),
                     1, "wire", [Target(1, TOTAL)], after)
    ensures after.invoices == map[1 := OPEN_INVOICE.(settled := TOTAL, status := Paid)]
    ensures after.payments == map[1 := Payment(9, "wire", TOTAL, TOTAL, Received)]
  {
  }

  /** After these services the order is shipped, invoiced and paid: its total sits on the
      bank account and in revenue, its cost has left the inventory, nobody owes anything. */
  lemma OrderIsPaid()
    ensures exists t :: Reached(t)
              && t.orders.Keys == {1} && t.orders[1].status == Shipped
              && t.ar.invoices.Keys == {1} && t.ar.invoices[1].status == Paid
              && t.ar.payments.Keys == {1} && t.ar.payments[1].drawn == TOTAL
              && Balance(t.books.entries, 1000) == TOTAL && Balance(t.books.entries, 1100) == 0
              && Balance(t.books.entries, 4000) + TOTAL == 0
              && Balance(t.books.entries, 5000) == COST_TOTAL && Balance(t.books.entries, 1300) + COST_TOTAL == 0
  {
    hide Run, Reached, Apply, PeriodOpen, Balance, Perform;
    OrderShips();
    var shipped := Apply(ReadyToShip(), ShipOp(1, Prices(), DAY));
    OrderIsInvoiced(shipped);
    InvoiceIsPaid(Apply(shipped, Issuing()));
    assert PaidUp(Apply(Apply(shipped, Issuing()), Paying()));
  }
}
