/** The posting engine: business events become balanced journal entries, at most one
    per event. */
module Posting {
  import opened Common
  import opened Decimals
  import opened Ledger

  const CASH: Code := 1000
  const INVENTORY: Code := 1300
  const REVENUE: Code := 4000
  const COGS: Code := 5000

  datatype ShippedLine = ShippedLine(product: Id, qty: int, unitCost: int)

  /** An event on the bus. `exact` is the payload's amount field (total cost, total or
      amount) in 10^-12 units, as the publisher computed it, unrounded. */
  datatype Event = Event(kind: EventType, id: Id, date: Date, lines: seq<ShippedLine>, exact: int)

  datatype PostingRule = PostingRule(debit: Code, credit: Code)

  const POSTING_RULES: map<EventType, PostingRule> := map[
    GoodsShipped := PostingRule(COGS, INVENTORY),
    InvoiceIssued := PostingRule(RECEIVABLE, REVENUE),
    InvoiceVoided := PostingRule(REVENUE, RECEIVABLE),
    PaymentReceived := PostingRule(CASH, RECEIVABLE),
    PaymentVoided := PostingRule(RECEIVABLE, CASH)
  ]

  function KeyOf(e: Event): Source { Source(e.kind, e.id) }

  /** One side of a rule; building the line rounds the amount half-even. */
  function RuleLine(account: Code, debit: int, credit: int): Line {
    Line(account, FUNCTIONAL_CURRENCY, RoundHalfEven(debit), RoundHalfEven(credit),
         RoundHalfEven(debit), RoundHalfEven(credit), RATE_ONE)
  }

  function EventLines(rule: PostingRule, exact: int): seq<Line> {
    [RuleLine(rule.debit, exact, 0), RuleLine(rule.credit, 0, exact)]
  }

  /** What delivering `e` to the posting handler amounts to. */
  function PostEvent(b: Books, e: Event): Outcome<Books> {
    if e.kind !in POSTING_RULES then Failed(Rejected)
    else if e.exact == 0 then Done(b)
    else
      var rule := POSTING_RULES[e.kind];
      if !({rule.debit, rule.credit} <= b.chart.Keys) then Failed(UnknownAccount)
      else
        var posted := Post(b, EntryDraft(e.date, Some(KeyOf(e)), EventLines(rule, e.exact)));
        if posted == Failed(SourceConflict) then Done(b) else posted
  }

  /** The handler, with its savepoint: a duplicate undoes the counter too. */
  method HandlePostingEvent(ledger: LedgerService, e: Event) returns (error: Option<Error>)
    modifies ledger`entries, ledger`nextNo
    ensures match PostEvent(old(ledger.State()), e)
            case Done(after) => error == None && ledger.State() == after
            case Failed(cause) => error == Some(cause) && ledger.State() == old(ledger.State())
  {
    if e.kind !in POSTING_RULES { return Some(Rejected); }
    var rule := POSTING_RULES[e.kind];
    if e.exact == 0 { return None; }
    if !({rule.debit, rule.credit} <= ledger.chart.Keys) { return Some(UnknownAccount); }
    var lines := [RuleLine(rule.debit, e.exact, 0)];
    lines := lines + [RuleLine(rule.credit, 0, e.exact)];
    assert lines == EventLines(rule, e.exact);
    var draft := EntryDraft(e.date, Some(KeyOf(e)), lines);
    var savedEntries, savedNextNo := ledger.entries, ledger.nextNo;
    error := ledger.PostJournalEntry(draft);
    if error == Some(SourceConflict) {
      ledger.entries, ledger.nextNo := savedEntries, savedNextNo;
      error := None;
    }
  }

  // ---------------------------------------------------------------------------
  // What a delivery does
  // ---------------------------------------------------------------------------

  /** The effect on account `a` of the entry for `e`, in stored units. */
  function Effect(e: Event, a: Code): int
    requires e.kind in POSTING_RULES
  {
    var rule := POSTING_RULES[e.kind];
    (if rule.debit == a then RoundHalfEven(e.exact) else 0)
      - if rule.credit == a then RoundHalfEven(e.exact) else 0
  }

  /** Voiding a document undoes its entry on every account. */
  lemma VoidsMirror(issued: Event, voided: Event, a: Code)
    requires issued.exact == voided.exact
    requires (issued.kind == InvoiceIssued && voided.kind == InvoiceVoided)
          || (issued.kind == PaymentReceived && voided.kind == PaymentVoided)
    ensures Effect(issued, a) + Effect(voided, a) == 0
    ensures Effect(issued, a) != 0 ==> a in {RECEIVABLE, CASH, REVENUE}
  {
  }

  lemma PairTotals(x: Line, y: Line, side: Line -> int, a: Code)
    ensures SideTotal([x, y], side) == side(x) + side(y)
    ensures SideOn([x, y], side, a) == (if x.account == a then side(x) else 0) + if y.account == a then side(y) else 0
  {
    assert [x, y][..1] == [x];
    assert SideTotal([x], side) == side(x);
    assert SideOn([x], side, a) == if x.account == a then side(x) else 0;
  }

  lemma EventLinesFacts(rule: PostingRule, exact: int, a: Code)
    ensures var lines := EventLines(rule, exact);
            && (Postable(lines) <==> RoundHalfEven(exact) > 0)
            && AccountsOf(lines) == {rule.debit, rule.credit}
            && Net(lines, a) == (if rule.debit == a then RoundHalfEven(exact) else 0)
                              - (if rule.credit == a then RoundHalfEven(exact) else 0)
  {
    var d, c := RuleLine(rule.debit, exact, 0), RuleLine(rule.credit, 0, exact);
    assert RoundHalfEven(0) == 0;
    PairTotals(d, c, DebitOf, a);
    PairTotals(d, c, CreditOf, a);
    assert d in EventLines(rule, exact) && c in EventLines(rule, exact);
  }

  /** A delivery either changes nothing, or appends one balanced entry of the rounded
      amount under the event's own key; it appends only for a key not yet used. */
  lemma DeliveryShape(b: Books, e: Event)
    requires PostEvent(b, e).Done?
    ensures var c := PostEvent(b, e).value;
            if e.exact == 0 || HasSource(b.entries, KeyOf(e)) then c == b else
              && c == Append(b, e.date, Some(KeyOf(e)), None, EventLines(POSTING_RULES[e.kind], e.exact))
              && RoundHalfEven(e.exact) > 0
              && HasSource(c.entries, KeyOf(e))
              && forall a :: Balance(c.entries, a) == Balance(b.entries, a) + Effect(e, a)
  {
    var c := PostEvent(b, e).value;
    EventLinesFacts(POSTING_RULES[e.kind], e.exact, 0);
    if e.exact != 0 && !HasSource(b.entries, KeyOf(e)) {
      var lines := EventLines(POSTING_RULES[e.kind], e.exact);
      assert c.entries[|b.entries|] in c.entries;
      forall a ensures Balance(c.entries, a) == Balance(b.entries, a) + Effect(e, a) {
        AppendMovesBalance(b, e.date, Some(KeyOf(e)), None, lines, a);
        EventLinesFacts(POSTING_RULES[e.kind], e.exact, a);
      }
    }
  }

  lemma PostEventKeeps(b: Books, e: Event)
    requires BooksOk(b) && PostEvent(b, e).Done?
    ensures BooksOk(PostEvent(b, e).value)
    ensures PostEvent(b, e).value.chart == b.chart && PostEvent(b, e).value.periods == b.periods
  {
    DeliveryShape(b, e);
    if e.exact != 0 && !HasSource(b.entries, KeyOf(e)) {
      PostKeeps(b, EntryDraft(e.date, Some(KeyOf(e)), EventLines(POSTING_RULES[e.kind], e.exact)));
    }
  }

  /** Redelivering a posted event changes nothing: it is skipped, or it aborts on a
      period closed (or an account removed) since. */
  lemma RedeliveryPostsNothing(b: Books, e: Event)
    requires HasSource(b.entries, KeyOf(e))
    ensures PostEvent(b, e) == Done(b) || PostEvent(b, e).Failed?
  {
  }

  /** When a redelivery returns normally: exactly when the books would still take the entry,
      for everything else is checked before the unique index. */
  lemma DuplicateSkipsIff(b: Books, e: Event)
    requires HasSource(b.entries, KeyOf(e)) && e.kind in POSTING_RULES && e.exact != 0
    ensures var rule := POSTING_RULES[e.kind];
            PostEvent(b, e) == Done(b) <==>
              {rule.debit, rule.credit} <= b.chart.Keys && RoundHalfEven(e.exact) > 0 && PeriodOpen(b, e.date)
  {
    EventLinesFacts(POSTING_RULES[e.kind], e.exact, 0);
  }

  /** The three fates of a cost posting on company books that carry the two accounts
      and an open period, for an order not yet posted. */
  lemma CostPostingTrichotomy(b: Books, e: Event)
    requires e.kind == GoodsShipped && e.exact >= 0
    requires {COGS, INVENTORY} <= b.chart.Keys && PeriodOpen(b, e.date) && !HasSource(b.entries, KeyOf(e))
    ensures PostEvent(b, e) == Done(b) <==> e.exact == 0
    ensures PostEvent(b, e).Failed? <==> 0 < e.exact && 2 * e.exact <= MICRO
    ensures 2 * e.exact > MICRO ==>
              && PostEvent(b, e).Done?
              && |PostEvent(b, e).value.entries| == |b.entries| + 1
              && var entry := PostEvent(b, e).value.entries[|b.entries|];
                 && Net(entry.lines, COGS) == RoundHalfEven(e.exact) == -Net(entry.lines, INVENTORY)
                 && Postable(entry.lines)
  {
    EventLinesFacts(POSTING_RULES[GoodsShipped], e.exact, COGS);
    EventLinesFacts(POSTING_RULES[GoodsShipped], e.exact, INVENTORY);
    assert e.exact > 0 ==> (RoundHalfEven(e.exact) > 0 <==> 2 * e.exact > MICRO);
    if PostEvent(b, e).Done? { DeliveryShape(b, e); }
  }

  // ---------------------------------------------------------------------------
  // Rounding drift of the cost account
  // ---------------------------------------------------------------------------

  /** Delivering events one transaction after the other; an abort changes nothing. */
  function PostAll(b: Books, events: seq<Event>): Books {
    if events == [] then b else
    var before := PostAll(b, events[..|events| - 1]);
    match PostEvent(before, events[|events| - 1])
    case Done(after) => after
    case Failed(_) => before
  }

  predicate PostsNow(b: Books, e: Event) {
    PostEvent(b, e).Done? && e.exact != 0 && !HasSource(b.entries, KeyOf(e))
  }

  /** How many of the events posted an entry. */
  function PostedCount(b: Books, events: seq<Event>): nat {
    if events == [] then 0 else
    var front, last := events[..|events| - 1], events[|events| - 1];
    PostedCount(b, front) + if PostsNow(PostAll(b, front), last) then 1 else 0
  }

  /** The exact cost of the events that posted an entry. */
  function PostedExact(b: Books, events: seq<Event>): int {
    if events == [] then 0 else
    var front, last := events[..|events| - 1], events[|events| - 1];
    PostedExact(b, front) + if PostsNow(PostAll(b, front), last) then last.exact else 0
  }

  /** After any run of cost deliveries, the debits on COGS differ from the exact cost
      of what was posted by at most half a stored unit per posting. */
  lemma {:induction false} CostDrift(b: Books, events: seq<Event>)
    requires forall e :: e in events ==> e.kind == GoodsShipped
    ensures var booked := Balance(PostAll(b, events).entries, COGS) - Balance(b.entries, COGS);
            var n := PostedCount(b, events);
            -MICRO * n <= 2 * (MICRO * booked - PostedExact(b, events)) <= MICRO * n
  {
    if events != [] {
      var front, last := events[..|events| - 1], events[|events| - 1];
      assert last in events;
      forall e | e in front ensures e in events {}
      CostDrift(b, front);
      var before := PostAll(b, front);
      if PostEvent(before, last).Done? {
        DeliveryShape(before, last);
        HalfEvenIsNearestEven(last.exact, RoundHalfEven(last.exact));
      }
    }
  }
}
