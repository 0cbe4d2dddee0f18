/** Customer exposure, the credit-limit check made at confirmation, and what each
    business step does to exposure. */
module Credit {
  import opened Common
  import opened Decimals
  import opened Sums
  import opened Fingerprint
  import opened Receivables
  import opened Sales

  /** The total of an order that counts as uninvoiced exposure of `customer`. */
  ghost function UninvoicedFor(invoices: map<Id, Invoice>, customer: Id): Order -> int {
    (o: Order) =>
      if o.customer == customer && (o.status == Confirmed || o.status == Shipped) && !HasLiveInvoice(invoices, o.id)
      then o.total else 0
  }

  ghost function Exposure(orders: map<Id, Order>, invoices: map<Id, Invoice>, customer: Id): int {
    SumBy(orders, UninvoicedFor(invoices, customer)) + SumBy(invoices, OpenFor(customer))
  }

  /** The hook: a zero limit means unchecked; `exact` is the unrounded order total. */
  predicate PassesLimit(limit: int, grace: int, exposure: int, exact: int) {
    limit == 0 || MICRO * exposure + exact <= MICRO * (limit + grace)
  }

  /** Every invoice was issued for a shipped order, with its total and customer. */
  ghost predicate Linked(orders: map<Id, Order>, invoices: map<Id, Invoice>) {
    forall i :: i in invoices ==>
      var o := invoices[i].order;
      && o in orders && orders[o].status == Shipped
      && orders[o].total == invoices[i].total && orders[o].customer == invoices[i].customer
  }

  /** Amounts an invoice or order may carry. */
  ghost predicate Bounded(orders: map<Id, Order>, invoices: map<Id, Invoice>) {
    && (forall o :: o in orders ==> orders[o].id == o && orders[o].total >= 0)
    && (forall i :: i in invoices ==> 0 <= invoices[i].settled <= invoices[i].total)
  }

  ghost predicate CreditTablesOk(orders: map<Id, Order>, invoices: map<Id, Invoice>) {
    Linked(orders, invoices) && Bounded(orders, invoices) && OneLiveInvoice(invoices)
  }

  // ---------------------------------------------------------------------------
  // What each step does to exposure
  // ---------------------------------------------------------------------------

  /** Writing one order row changes exposure by the change of that row. */
  lemma OrderWrite(orders: map<Id, Order>, invoices: map<Id, Invoice>, o: Id, row: Order, c: Id)
    ensures Exposure(orders[o := row], invoices, c) ==
            Exposure(orders, invoices, c)
              - (if o in orders then UninvoicedFor(invoices, c)(orders[o]) else 0)
              + UninvoicedFor(invoices, c)(row)
  {
    SumByUpdate(orders, UninvoicedFor(invoices, c), o, row);
  }

  /** Confirming a draft raises its customer's exposure by the stored total. */
  lemma ConfirmRaises(orders: map<Id, Order>, invoices: map<Id, Invoice>, o: Id, row: Order, c: Id)
    requires CreditTablesOk(orders, invoices) && o in orders && orders[o].status == Draft
    requires row.id == o && row.status == Confirmed && row.customer == orders[o].customer
    ensures Exposure(orders[o := row], invoices, c) ==
            Exposure(orders, invoices, c) + if row.customer == c then row.total else 0
  {
    OrderWrite(orders, invoices, o, row, c);
    assert !HasLiveInvoice(invoices, o);
  }

  lemma ShipKeepsExposure(orders: map<Id, Order>, invoices: map<Id, Invoice>, o: Id, row: Order, c: Id)
    requires o in orders && orders[o].status == Confirmed
    requires row.id == orders[o].id && row.status == Shipped
    requires row.customer == orders[o].customer && row.total == orders[o].total
    ensures Exposure(orders[o := row], invoices, c) == Exposure(orders, invoices, c)
  {
    OrderWrite(orders, invoices, o, row, c);
  }

  /** Cancelling, or writing a draft, never raises exposure. */
  lemma InertOrderWrite(orders: map<Id, Order>, invoices: map<Id, Invoice>, o: Id, row: Order, c: Id)
    requires Bounded(orders, invoices) && (row.status == Cancelled || row.status == Draft)
    ensures Exposure(orders[o := row], invoices, c) <= Exposure(orders, invoices, c)
  {
    OrderWrite(orders, invoices, o, row, c);
  }

  /** Issuing moves the order's total from uninvoiced to open: exposure is unchanged. */
  lemma IssueKeepsExposure(orders: map<Id, Order>, invoices: map<Id, Invoice>, i: Id, inv: Invoice, c: Id)
    requires CreditTablesOk(orders, invoices) && i !in invoices && inv.order in orders
    requires orders[inv.order].status == Shipped && orders[inv.order].total == inv.total
    requires orders[inv.order].customer == inv.customer
    requires inv.settled == 0 && inv.status != InvoiceVoid && !HasLiveInvoice(invoices, inv.order)
    ensures Exposure(orders, invoices[i := inv], c) == Exposure(orders, invoices, c)
  {
    var after := invoices[i := inv];
    SumByUpdate(invoices, OpenFor(c), i, inv);
    assert after[i] == inv;
    assert HasLiveInvoice(after, inv.order);
    forall o | o in orders && o != inv.order
      ensures UninvoicedFor(invoices, c)(orders[o]) == UninvoicedFor(after, c)(orders[o])
    {
      LiveElsewhere(invoices, i, inv, orders[o].id);
    }
    SumByChangeOne(orders, UninvoicedFor(invoices, c), UninvoicedFor(after, c), inv.order);
  }

  lemma LiveElsewhere(invoices: map<Id, Invoice>, i: Id, inv: Invoice, o: Id)
    requires inv.order != o && (i in invoices ==> invoices[i].order == inv.order)
    ensures HasLiveInvoice(invoices[i := inv], o) <==> HasLiveInvoice(invoices, o)
  {
    var after := invoices[i := inv];
    if HasLiveInvoice(invoices, o) {
      var j :| j in invoices && invoices[j].order == o && invoices[j].status != InvoiceVoid;
      assert after[j] == invoices[j];
    }
    if HasLiveInvoice(after, o) {
      var j :| j in after && after[j].order == o && after[j].status != InvoiceVoid;
      assert invoices[j] == after[j];
    }
  }

  /** Voiding moves the total back: exposure is unchanged. */
  lemma VoidKeepsExposure(orders: map<Id, Order>, invoices: map<Id, Invoice>, i: Id, c: Id)
    requires CreditTablesOk(orders, invoices) && i in invoices
    requires invoices[i].status != InvoiceVoid && invoices[i].settled == 0
    ensures Exposure(orders, invoices[i := invoices[i].(status := InvoiceVoid)], c) == Exposure(orders, invoices, c)
  {
    var inv := invoices[i];
    var gone := inv.(status := InvoiceVoid);
    var after := invoices[i := gone];
    SumByUpdate(invoices, OpenFor(c), i, gone);
    assert HasLiveInvoice(invoices, inv.order);
    assert !HasLiveInvoice(after, inv.order);
    forall o | o in orders && o != inv.order
      ensures UninvoicedFor(invoices, c)(orders[o]) == UninvoicedFor(after, c)(orders[o])
    {
      LiveElsewhere(invoices, i, gone, orders[o].id);
    }
    SumByChangeOne(orders, UninvoicedFor(invoices, c), UninvoicedFor(after, c), inv.order);
  }

  /** Allocating to live invoices never raises exposure. */
  lemma {:induction false} SettleLowersExposure(orders: map<Id, Order>, invoices: map<Id, Invoice>,
      targets: seq<Target>, c: Id)
    requires forall t :: t in targets ==> t.invoice in invoices && invoices[t.invoice].status != InvoiceVoid
    ensures Exposure(orders, Settle(invoices, targets), c) <= Exposure(orders, invoices, c)
    decreases |targets|
  {
    if targets != [] {
      var t := targets[0];
      assert t in targets;
      forall u | u in targets[1..] ensures u in targets {}
      var inv, paid := invoices[t.invoice], SettleOne(invoices[t.invoice], t.amount);
      var next := invoices[t.invoice := paid];
      SumByUpdate(invoices, OpenFor(c), t.invoice, paid);
      forall o | o in orders ensures UninvoicedFor(invoices, c)(orders[o]) == UninvoicedFor(next, c)(orders[o]) {
        SettledStaysLive(invoices, t.invoice, paid, orders[o].id);
      }
      SumByCongruent(orders, UninvoicedFor(invoices, c), UninvoicedFor(next, c));
      SettleLowersExposure(orders, next, targets[1..], c);
    }
  }

  lemma SettledStaysLive(invoices: map<Id, Invoice>, i: Id, paid: Invoice, o: Id)
    requires i in invoices && paid.order == invoices[i].order
    requires invoices[i].status != InvoiceVoid && paid.status != InvoiceVoid
    ensures HasLiveInvoice(invoices[i := paid], o) <==> HasLiveInvoice(invoices, o)
  {
    var next := invoices[i := paid];
    if HasLiveInvoice(invoices, o) {
      var j :| j in invoices && invoices[j].order == o && invoices[j].status != InvoiceVoid;
      assert next[j].order == o && next[j].status != InvoiceVoid;
    }
    if HasLiveInvoice(next, o) {
      var j :| j in next && next[j].order == o && next[j].status != InvoiceVoid;
      assert invoices[j].order == o && invoices[j].status != InvoiceVoid;
    }
  }

  /** Rounding the checked total into the column cannot cross the limit. */
  lemma CheckedTotalFits(limit: int, grace: int, exposure: int, exact: int)
    requires exact >= 0 && limit != 0 && PassesLimit(limit, grace, exposure, exact)
    ensures exposure + Stored(exact) <= limit + grace
  {
    ColumnRoundingKeepsGridBounds(exact, limit + grace - exposure);
  }
}
