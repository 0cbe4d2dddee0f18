/** The receivables aging report: one compound statement over open invoices and
    unapplied credit, grouped by customer. */
module Aging {
  import opened Common
  import opened Sums
  import opened Receivables

  datatype Kind = InvoiceItem | CreditItem

  /** A row of the UNION ALL; `due` is an ordinal day and means nothing for a credit. */
  datatype Item = Item(customer: Id, kind: Kind, amount: int, due: int)

  /** The UNION ALL keeps both operands' rows, so a sum over it is the sum of both. */
  datatype Union = Union(fromInvoices: map<Id, Item>, fromPayments: map<Id, Item>)

  datatype Bucket = Current | Days1To30 | Days31To60 | Days61To90 | Days90Plus

  datatype Row = Row(current: int, days1To30: int, days31To60: int, days61To90: int, days90Plus: int,
                     unapplied: int, net: int)

  function InvoiceItems(invoices: map<Id, Invoice>): map<Id, Item> {
    map i | i in invoices && invoices[i].status != InvoiceVoid && invoices[i].total - invoices[i].settled > 0 ::
      Item(invoices[i].customer, InvoiceItem, invoices[i].total - invoices[i].settled, invoices[i].due)
  }

  function CreditItems(payments: map<Id, Payment>): map<Id, Item> {
    map p | p in payments && payments[p].status != PaymentVoid && payments[p].amount - payments[p].drawn > 0 ::
      Item(payments[p].customer, CreditItem, payments[p].amount - payments[p].drawn, 0)
  }

  function UnionAll(ar: Ar): Union {
    Union(InvoiceItems(ar.invoices), CreditItems(ar.payments))
  }

  ghost function Sum(u: Union, f: Item -> int): int {
    SumBy(u.fromInvoices, f) + SumBy(u.fromPayments, f)
  }

  /** The condition of each bucket's CASE expression. */
  predicate Falls(bucket: Bucket, item: Item, bucketDate: int) {
    var daysPastDue := bucketDate - item.due;
    item.kind == InvoiceItem &&
    match bucket
    case Current => daysPastDue <= 0
    case Days1To30 => daysPastDue > 0 && daysPastDue <= 30
    case Days31To60 => daysPastDue > 30 && daysPastDue <= 60
    case Days61To90 => daysPastDue > 60 && daysPastDue <= 90
    case Days90Plus => daysPastDue > 90
  }

  ghost function BucketCase(bucket: Bucket, customer: Id, bucketDate: int): Item -> int {
    (item: Item) => if item.customer == customer && Falls(bucket, item, bucketDate) then item.amount else 0
  }

  ghost function CreditCase(customer: Id): Item -> int {
    (item: Item) => if item.customer == customer && item.kind == CreditItem then item.amount else 0
  }

  ghost function RowOf(u: Union, customer: Id, bucketDate: int): Row {
    var current := Sum(u, BucketCase(Current, customer, bucketDate));
    var d30 := Sum(u, BucketCase(Days1To30, customer, bucketDate));
    var d60 := Sum(u, BucketCase(Days31To60, customer, bucketDate));
    var d90 := Sum(u, BucketCase(Days61To90, customer, bucketDate));
    var over := Sum(u, BucketCase(Days90Plus, customer, bucketDate));
    var unapplied := Sum(u, CreditCase(customer));
    Row(current, d30, d60, d90, over, unapplied, current + d30 + d60 + d90 + over - unapplied)
  }

  function CustomersOf(items: map<Id, Item>): set<Id> {
    set k | k in items :: items[k].customer
  }

  /** GROUP BY customer_id over the union. */
  ghost function Report(ar: Ar, bucketDate: int): map<Id, Row> {
    var u := UnionAll(ar);
    map c | c in CustomersOf(u.fromInvoices) + CustomersOf(u.fromPayments) :: RowOf(u, c, bucketDate)
  }

  // ---------------------------------------------------------------------------
  // The specification, straight over the tables
  // ---------------------------------------------------------------------------

  /** What one customer owes: open invoices less unapplied credit. */
  ghost function Owed(ar: Ar, customer: Id): int {
    SumBy(ar.invoices, OpenFor(customer)) - SumBy(ar.payments, UnappliedFor(customer))
  }

  function NetOf(row: Row): int { row.net }
  function CustomerOf(item: Item): Id { item.customer }
  function Signed(item: Item): int { if item.kind == InvoiceItem then item.amount else -item.amount }

  ghost function SignedFor(customer: Id): Item -> int {
    InGroup(CustomerOf, Signed, customer)
  }

  /** Every open invoice lands in exactly one bucket, whatever the bucket date. */
  lemma ExactlyOneBucket(item: Item, bucketDate: int)
    requires item.kind == InvoiceItem
    ensures exists b :: Falls(b, item, bucketDate) && forall c :: Falls(c, item, bucketDate) ==> c == b
  {
    var late := bucketDate - item.due;
    var b := if late <= 0 then Current else if late <= 30 then Days1To30 else if late <= 60 then Days31To60
             else if late <= 90 then Days61To90 else Days90Plus;
    assert Falls(b, item, bucketDate);
  }

  /** The age band of an amount `late` days past due: the first thirty days, the second,
      the third, and everything after. */
  function BandOf(late: int): Bucket {
    if late <= 0 then Current else
    match (late - 1) / 30
    case 0 => Days1To30
    case 1 => Days31To60
    case 2 => Days61To90
    case _ => Days90Plus
  }

  function Cell(row: Row, bucket: Bucket): int {
    match bucket
    case Current => row.current
    case Days1To30 => row.days1To30
    case Days31To60 => row.days31To60
    case Days61To90 => row.days61To90
    case Days90Plus => row.days90Plus
  }

  /** The open amount of a customer's invoice, if it is of that age. */
  ghost function OpenInBand(bucket: Bucket, customer: Id, bucketDate: int): Invoice -> int {
    (inv: Invoice) => if inv.customer == customer && BandOf(bucketDate - inv.due) == bucket then OpenOf(inv) else 0
  }

  /** Every cell of the report, straight from the tables: a bucket holds the customer's
      open invoices of that age, and the credit column its unapplied payments. */
  lemma CellsHoldTheirItems(ar: Ar, bucketDate: int, customer: Id, bucket: Bucket)
    requires ArOk(ar) && customer in Report(ar, bucketDate)
    ensures Cell(Report(ar, bucketDate)[customer], bucket) ==
              SumBy(ar.invoices, OpenInBand(bucket, customer, bucketDate))
    ensures Report(ar, bucketDate)[customer].unapplied == SumBy(ar.payments, UnappliedFor(customer))
  {
    hide ArOk, BucketCase, CreditCase, OpenInBand, UnappliedFor, Cell, RowOf, InvoiceItems, CreditItems;
    CellIsSum(UnionAll(ar), customer, bucketDate, bucket);
    BucketOfInvoices(ar, bucketDate, customer, bucket);
    CreditOfPayments(ar, customer);
    KindsAreApart(ar, bucketDate, customer, bucket);
  }

  lemma CellIsSum(u: Union, customer: Id, bucketDate: int, bucket: Bucket)
    ensures Cell(RowOf(u, customer, bucketDate), bucket) == Sum(u, BucketCase(bucket, customer, bucketDate))
    ensures RowOf(u, customer, bucketDate).unapplied == Sum(u, CreditCase(customer))
  {
  }

  lemma KindsAreApart(ar: Ar, bucketDate: int, customer: Id, bucket: Bucket)
    ensures SumBy(CreditItems(ar.payments), BucketCase(bucket, customer, bucketDate)) == 0
    ensures SumBy(InvoiceItems(ar.invoices), CreditCase(customer)) == 0
  {
    SumByZero(CreditItems(ar.payments), BucketCase(bucket, customer, bucketDate));
    SumByZero(InvoiceItems(ar.invoices), CreditCase(customer));
  }

  lemma BucketOfInvoices(ar: Ar, bucketDate: int, customer: Id, bucket: Bucket)
    requires ArOk(ar)
    ensures SumBy(InvoiceItems(ar.invoices), BucketCase(bucket, customer, bucketDate))
            == SumBy(ar.invoices, OpenInBand(bucket, customer, bucketDate))
  {
    var items := InvoiceItems(ar.invoices);
    forall i | i in ar.invoices
      ensures OpenInBand(bucket, customer, bucketDate)(ar.invoices[i])
              == if i in items then BucketCase(bucket, customer, bucketDate)(items[i]) else 0
    {
      assert InvoiceOk(ar.invoices[i], SettledBy(ar.allocations, i));
      if i in items { BandIsCase(items[i], bucket, bucketDate); }
    }
    SumByFiltered(ar.invoices, items, OpenInBand(bucket, customer, bucketDate),
                  BucketCase(bucket, customer, bucketDate));
  }

  /** Each CASE expression selects exactly its age band. */
  lemma BandIsCase(item: Item, bucket: Bucket, bucketDate: int)
    requires item.kind == InvoiceItem
    ensures Falls(bucket, item, bucketDate) <==> BandOf(bucketDate - item.due) == bucket
  {
  }

  lemma CreditOfPayments(ar: Ar, customer: Id)
    requires ArOk(ar)
    ensures SumBy(CreditItems(ar.payments), CreditCase(customer)) == SumBy(ar.payments, UnappliedFor(customer))
  {
    var items := CreditItems(ar.payments);
    forall p | p in ar.payments
      ensures UnappliedFor(customer)(ar.payments[p]) == if p in items then CreditCase(customer)(items[p]) else 0
    {
      assert PaymentOk(ar.payments[p], DrawnFrom(ar.allocations, p));
    }
    SumByFiltered(ar.payments, items, UnappliedFor(customer), CreditCase(customer));
  }

  /** Bucket sums less credits, over one operand of the union. */
  ghost function Spread(items: map<Id, Item>, c: Id, d: int): int {
    SumBy(items, BucketCase(Current, c, d)) + SumBy(items, BucketCase(Days1To30, c, d))
      + SumBy(items, BucketCase(Days31To60, c, d)) + SumBy(items, BucketCase(Days61To90, c, d))
      + SumBy(items, BucketCase(Days90Plus, c, d)) - SumBy(items, CreditCase(c))
  }

  lemma SignedAt(item: Item, c: Id)
    ensures SignedFor(c)(item) == if item.customer == c then Signed(item) else 0
  {
    assert InGroup(CustomerOf, Signed, c)(item) == if CustomerOf(item) == c then Signed(item) else 0;
  }

  lemma CasesAddUp(item: Item, c: Id, d: int)
    ensures BucketCase(Current, c, d)(item) + BucketCase(Days1To30, c, d)(item)
              + BucketCase(Days31To60, c, d)(item) + BucketCase(Days61To90, c, d)(item)
              + BucketCase(Days90Plus, c, d)(item) - CreditCase(c)(item) == SignedFor(c)(item)
  {
    SignedAt(item, c);
  }

  lemma {:induction false} SpreadIsSigned(items: map<Id, Item>, c: Id, d: int)
    ensures Spread(items, c, d) == SumBy(items, SignedFor(c))
    decreases |items|
  {
    if items != map[] {
      var k := Pick(items);
      SpreadIsSigned(items - {k}, c, d);
      CasesAddUp(items[k], c, d);
    }
  }

  /** A row's net total is the signed sum of the customer's items. */
  lemma NetIsSigned(u: Union, customer: Id, bucketDate: int)
    ensures RowOf(u, customer, bucketDate).net == Sum(u, SignedFor(customer))
  {
    SpreadIsSigned(u.fromInvoices, customer, bucketDate);
    SpreadIsSigned(u.fromPayments, customer, bucketDate);
  }

  lemma UnlistedIsZero(ar: Ar)
    requires ArOk(ar)
    ensures forall i :: i in ar.invoices && i !in InvoiceItems(ar.invoices) ==> OpenOf(ar.invoices[i]) == 0
    ensures forall p :: p in ar.payments && p !in CreditItems(ar.payments) ==> UnappliedOf(ar.payments[p]) == 0
  {
    forall i | i in ar.invoices && i !in InvoiceItems(ar.invoices) ensures OpenOf(ar.invoices[i]) == 0 {
      assert InvoiceOk(ar.invoices[i], SettledBy(ar.allocations, i));
    }
    forall p | p in ar.payments && p !in CreditItems(ar.payments) ensures UnappliedOf(ar.payments[p]) == 0 {
      assert PaymentOk(ar.payments[p], DrawnFrom(ar.allocations, p));
    }
  }

  /** The signed sum of the union is the subledger. */
  lemma SignedIsSubledger(ar: Ar)
    requires ArOk(ar)
    ensures Sum(UnionAll(ar), Signed) == Subledger(ar)
  {
    hide ArOk;
    UnlistedIsZero(ar);
    SumByFiltered(ar.invoices, InvoiceItems(ar.invoices), OpenOf, Signed);
    forall p | p in ar.payments
      ensures Negated(UnappliedOf)(ar.payments[p]) ==
              if p in CreditItems(ar.payments) then Signed(CreditItems(ar.payments)[p]) else 0
    {
      assert Negated(UnappliedOf)(ar.payments[p]) == -UnappliedOf(ar.payments[p]);
    }
    SumByFiltered(ar.payments, CreditItems(ar.payments), Negated(UnappliedOf), Signed);
    SumByNegated(ar.payments, UnappliedOf);
  }

  /** The signed sum of one customer's items is what the customer owes. */
  lemma SignedIsOwed(ar: Ar, customer: Id)
    requires ArOk(ar)
    ensures Sum(UnionAll(ar), SignedFor(customer)) == Owed(ar, customer)
  {
    hide ArOk, SignedFor;
    UnlistedIsZero(ar);
    var open, credit := InvoiceItems(ar.invoices), CreditItems(ar.payments);
    forall i | i in ar.invoices
      ensures OpenFor(customer)(ar.invoices[i]) == if i in open then SignedFor(customer)(open[i]) else 0
    {
      if i in open { SignedAt(open[i], customer); }
    }
    SumByFiltered(ar.invoices, open, OpenFor(customer), SignedFor(customer));
    forall p | p in ar.payments
      ensures Negated(UnappliedFor(customer))(ar.payments[p]) ==
              if p in credit then SignedFor(customer)(credit[p]) else 0
    {
      if p in credit { SignedAt(credit[p], customer); }
    }
    SumByFiltered(ar.payments, credit, Negated(UnappliedFor(customer)), SignedFor(customer));
    SumByNegated(ar.payments, UnappliedFor(customer));
  }

  /** Customers with an open invoice or unapplied credit; payment-only customers count. */
  ghost predicate InPopulation(ar: Ar, customer: Id) {
    || (exists i :: i in ar.invoices && ar.invoices[i].customer == customer && OpenOf(ar.invoices[i]) > 0)
    || (exists p :: p in ar.payments && ar.payments[p].customer == customer && UnappliedOf(ar.payments[p]) > 0)
  }

  lemma Population(ar: Ar, bucketDate: int, customer: Id)
    ensures customer in Report(ar, bucketDate) <==> InPopulation(ar, customer)
  {
    var u := UnionAll(ar);
    forall i | i in ar.invoices && ar.invoices[i].customer == customer && OpenOf(ar.invoices[i]) > 0
      ensures customer in CustomersOf(u.fromInvoices)
    {
      assert i in u.fromInvoices && u.fromInvoices[i].customer == customer;
    }
    forall p | p in ar.payments && ar.payments[p].customer == customer && UnappliedOf(ar.payments[p]) > 0
      ensures customer in CustomersOf(u.fromPayments)
    {
      assert p in u.fromPayments && u.fromPayments[p].customer == customer;
    }
  }

  /** The report refines the specification: its customers are exactly those with an
      open invoice or unapplied credit, and each net total is what the customer owes,
      whatever the bucket date. */
  lemma ReportIsOwed(ar: Ar, bucketDate: int, customer: Id)
    requires ArOk(ar)
    ensures customer in Report(ar, bucketDate) <==> InPopulation(ar, customer)
    ensures customer in Report(ar, bucketDate) ==> Report(ar, bucketDate)[customer].net == Owed(ar, customer)
  {
    Population(ar, bucketDate, customer);
    NetIsSigned(UnionAll(ar), customer, bucketDate);
    SignedIsOwed(ar, customer);
  }

  ghost function NetFor(u: Union): Id -> int {
    (c: Id) => Sum(u, SignedFor(c))
  }

  /** The report's net totals add up to the subledger. */
  lemma GrandTotalIsSubledger(ar: Ar, bucketDate: int)
    requires ArOk(ar)
    ensures SumBy(Report(ar, bucketDate), NetOf) == Subledger(ar)
  {
    hide ArOk, RowOf, Signed;
    var u := UnionAll(ar);
    var rows := Report(ar, bucketDate);
    var a, b := GroupSum(u.fromInvoices, CustomerOf, Signed), GroupSum(u.fromPayments, CustomerOf, Signed);
    forall c | c in rows ensures NetOf(rows[c]) == NetFor(u)(c) {
      NetIsSigned(u, c, bucketDate);
    }
    SumByKeys(rows, NetOf, NetFor(u));
    SumOverAdd(rows.Keys, a, b, NetFor(u));
    GroupSumsAddUp(u.fromInvoices, CustomerOf, Signed, rows.Keys);
    GroupSumsAddUp(u.fromPayments, CustomerOf, Signed, rows.Keys);
    SignedIsSubledger(ar);
  }
}
