/** Stock of one company: the append-only moves, the maintained on-hand summary, the
    shipment handler and the rebuild of the summary from the moves. */
module Inventory {
  import opened Common
  import opened Sums
  import opened Posting

  datatype Move = Move(product: Id, delta: int, source: Option<Source>)

  datatype Stock = Stock(onHand: map<Id, int>, moves: seq<Move>)

  /** SUM(qty_delta) for one product. */
  function Moved(moves: seq<Move>, p: Id): int {
    if moves == [] then 0 else
    var last := moves[|moves| - 1];
    Moved(moves[..|moves| - 1], p) + if last.product == p then last.delta else 0
  }

  function ProductsOf(moves: seq<Move>): set<Id> {
    set m | m in moves :: m.product
  }

  function OnHand(onHand: map<Id, int>, p: Id): int {
    if p in onHand then onHand[p] else 0
  }

  predicate HasMove(moves: seq<Move>, s: Source, p: Id) {
    exists m :: m in moves && m.source == Some(s) && m.product == p
  }

  predicate HasMoveFor(moves: seq<Move>, s: Source) {
    exists m :: m in moves && m.source == Some(s)
  }

  /** One stock move: sufficiency first, then the constraints that fire at the insert. */
  function ApplyMove(st: Stock, p: Id, delta: int, source: Option<Source>): Outcome<Stock> {
    if OnHand(st.onHand, p) + delta < 0 then Failed(InsufficientStock)
    else if delta == 0 then Failed(CheckViolation)
    else if source.Some? && HasMove(st.moves, source.value, p) then Failed(SourceConflict)
    else Done(Stock(st.onHand[p := OnHand(st.onHand, p) + delta], st.moves + [Move(p, delta, source)]))
  }

  /** The qty_by_product dictionary of a shipment. */
  function QtyByProduct(lines: seq<ShippedLine>): map<Id, int> {
    if lines == [] then map[] else
    var last := lines[|lines| - 1];
    var qty := QtyByProduct(lines[..|lines| - 1]);
    qty[last.product := OnHand(qty, last.product) + last.qty]
  }

  function ApplyBatch(st: Stock, products: seq<Id>, qty: map<Id, int>, s: Source): Outcome<Stock>
    requires forall p :: p in products ==> p in qty
    decreases |products|
  {
    if products == [] then Done(st) else
    match ApplyMove(st, products[0], -qty[products[0]], Some(s))
    case Done(next) => ApplyBatch(next, products[1..], qty, s)
    case Failed(e) => Failed(e)
  }

  /** What delivering a shipment to the inventory handler amounts to. */
  function Ship(st: Stock, lines: seq<ShippedLine>, s: Source): Outcome<Stock> {
    var qty := QtyByProduct(lines);
    var shipped := ApplyBatch(st, Ascending(qty.Keys), qty, s);
    if shipped == Failed(SourceConflict) then Done(st) else shipped
  }

  /** SELECT product_id, SUM(qty_delta) ... GROUP BY product_id */
  function MovedTotals(moves: seq<Move>): map<Id, int> {
    map p | p in ProductsOf(moves) :: Moved(moves, p)
  }

  lemma OverwrittenIsTotals(st: Stock, rows: map<Id, int>)
    requires forall p :: p in rows <==> p in st.onHand || p in MovedTotals(st.moves)
    requires forall p :: p in rows ==> rows[p] == OnHand(MovedTotals(st.moves), p)
    ensures rows == Totals(st)
    ensures rows.Keys == st.onHand.Keys + MovedTotals(st.moves).Keys
  {
    forall p | p in rows ensures rows[p] == Totals(st)[p] {
      if p !in MovedTotals(st.moves) { UnmovedIsZero(st.moves, p); }
    }
  }

  /** The totals of every product that has a summary row or a move. */
  function Totals(st: Stock): map<Id, int> {
    map p | p in st.onHand.Keys + ProductsOf(st.moves) :: Moved(st.moves, p)
  }

  /** Recomputing the summary; a negative total violates the column's CHECK. */
  function Rebuild(st: Stock): Outcome<Stock> {
    var totals := Totals(st);
    if exists p :: p in totals && totals[p] < 0 then Failed(CheckViolation)
    else Done(Stock(totals, st.moves))
  }

  // ---------------------------------------------------------------------------
  // What every run keeps
  // ---------------------------------------------------------------------------

  /** The summary is the sum of the moves, is never negative, and has a row for every
      moved product; a source moves a product at most once. */
  ghost predicate StockOk(st: Stock) {
    && (forall p :: OnHand(st.onHand, p) == Moved(st.moves, p) >= 0)
    && ProductsOf(st.moves) <= st.onHand.Keys
    && (forall m :: m in st.moves ==> m.delta != 0)
    && MovedOnce(st.moves)
  }

  ghost predicate MovedOnce(moves: seq<Move>) {
    forall i, j :: 0 <= i < j < |moves| && moves[i].source.Some? ==>
      moves[i].source != moves[j].source || moves[i].product != moves[j].product
  }

  lemma ApplyMoveKeeps(st: Stock, p: Id, delta: int, source: Option<Source>)
    requires StockOk(st) && ApplyMove(st, p, delta, source).Done?
    ensures StockOk(ApplyMove(st, p, delta, source).value)
  {
    hide Moved, MovedOnce, HasMove;
    var next := ApplyMove(st, p, delta, source).value;
    forall q ensures OnHand(next.onHand, q) == Moved(next.moves, q) >= 0 {
      assert OnHand(st.onHand, q) == Moved(st.moves, q) >= 0;
      MovedAppend(st.moves, Move(p, delta, source), q);
    }
    NewMoveIsNew(st.moves, Move(p, delta, source));
  }

  lemma NewMoveIsNew(moves: seq<Move>, m: Move)
    requires MovedOnce(moves) && (m.source.Some? ==> !HasMove(moves, m.source.value, m.product))
    ensures MovedOnce(moves + [m])
  {
    var after := moves + [m];
    forall i, j | 0 <= i < j < |after| && after[i].source.Some?
      ensures after[i].source != after[j].source || after[i].product != after[j].product
    {
      if j == |moves| { assert moves[i] in moves; }
    }
  }

  lemma {:induction false} ApplyBatchKeeps(st: Stock, products: seq<Id>, qty: map<Id, int>, s: Source)
    requires forall p :: p in products ==> p in qty
    requires StockOk(st) && ApplyBatch(st, products, qty, s).Done?
    ensures StockOk(ApplyBatch(st, products, qty, s).value)
    decreases |products|
  {
    hide StockOk, ApplyMove;
    if products != [] {
      ApplyMoveKeeps(st, products[0], -qty[products[0]], Some(s));
      ApplyBatchKeeps(ApplyMove(st, products[0], -qty[products[0]], Some(s)).value, products[1..], qty, s);
    }
  }

  lemma ShipKeeps(st: Stock, lines: seq<ShippedLine>, s: Source)
    requires StockOk(st) && Ship(st, lines, s).Done?
    ensures StockOk(Ship(st, lines, s).value)
  {
    var qty := QtyByProduct(lines);
    if ApplyBatch(st, Ascending(qty.Keys), qty, s).Done? {
      ApplyBatchKeeps(st, Ascending(qty.Keys), qty, s);
    }
  }

  lemma {:induction false} UnmovedIsZero(moves: seq<Move>, p: Id)
    requires p !in ProductsOf(moves)
    ensures Moved(moves, p) == 0
  {
    if moves != [] {
      var front := moves[..|moves| - 1];
      assert moves[|moves| - 1] in moves;
      forall m | m in front ensures m in moves {}
      UnmovedIsZero(front, p);
    }
  }

  /** A rebuild of a sound summary is the identity. */
  lemma RebuildIsIdentity(st: Stock)
    requires StockOk(st)
    ensures Rebuild(st) == Done(st)
  {
    var totals := Totals(st);
    forall p | p in totals ensures p in st.onHand && totals[p] == st.onHand[p] >= 0 {
      assert OnHand(st.onHand, p) == Moved(st.moves, p) >= 0;
    }
    assert totals.Keys == st.onHand.Keys;
    assert totals == st.onHand;
    assert !exists p :: p in totals && totals[p] < 0;
  }

  /** From any drifted or missing summary, a rebuild that commits restores every row
      the moves determine; it commits unless the moves themselves sum below zero. */
  lemma RebuildRepairs(st: Stock)
    ensures Rebuild(st).Done? <==> forall p :: Moved(st.moves, p) >= 0
    ensures Rebuild(st).Done? ==>
              var after := Rebuild(st).value;
              && after.moves == st.moves
              && (forall p :: OnHand(after.onHand, p) == Moved(st.moves, p))
              && ProductsOf(st.moves) <= after.onHand.Keys
  {
    hide Moved;
    var totals := Totals(st);
    forall p ensures OnHand(totals, p) == Moved(st.moves, p) {
      if p !in totals { UnmovedIsZero(st.moves, p); }
    }
    if p :| p in totals && totals[p] < 0 {
      assert OnHand(totals, p) == Moved(st.moves, p) < 0;
    } else {
      forall p ensures Moved(st.moves, p) >= 0 {
        assert OnHand(totals, p) == Moved(st.moves, p);
      }
    }
  }

  // ---------------------------------------------------------------------------
  // First delivery and redelivery of a shipment
  // ---------------------------------------------------------------------------

  /** The summed quantity of product `p` over the shipped lines. */
  function Demand(lines: seq<ShippedLine>, p: Id): int {
    if lines == [] then 0 else
    var last := lines[|lines| - 1];
    Demand(lines[..|lines| - 1], p) + if last.product == p then last.qty else 0
  }

  predicate Covered(onHand: map<Id, int>, lines: seq<ShippedLine>) {
    forall l :: l in lines ==> Demand(lines, l.product) <= OnHand(onHand, l.product)
  }

  lemma {:induction false} QtyIsDemand(lines: seq<ShippedLine>)
    requires forall l :: l in lines ==> l.qty > 0
    ensures QtyByProduct(lines).Keys == set l | l in lines :: l.product
    ensures forall p :: OnHand(QtyByProduct(lines), p) == Demand(lines, p) >= 0
    ensures forall p :: p in QtyByProduct(lines) ==> QtyByProduct(lines)[p] > 0
  {
    if lines != [] {
      var front, last := lines[..|lines| - 1], lines[|lines| - 1];
      assert lines == front + [last];
      QtyIsDemand(front);
      assert (set l | l in lines :: l.product) == (set l | l in front :: l.product) + {last.product};
    }
  }

  ghost predicate NoRepeat(q: seq<Id>) {
    q == [] || (q[0] !in q[1..] && NoRepeat(q[1..]))
  }

  lemma {:induction false} AscendingNoRepeat(q: seq<Id>)
    requires forall i, j :: 0 <= i < j < |q| ==> q[i] < q[j]
    ensures NoRepeat(q)
    decreases |q|
  {
    if q != [] { AscendingNoRepeat(q[1..]); }
  }

  /** A batch none of whose products moved yet fails only for lack of stock. */
  lemma {:induction false} BatchOutcome(st: Stock, products: seq<Id>, qty: map<Id, int>, s: Source)
    requires NoRepeat(products)
    requires forall p :: p in products ==> p in qty && qty[p] > 0 && !HasMove(st.moves, s, p)
    ensures ApplyBatch(st, products, qty, s).Done? <==> forall p :: p in products ==> qty[p] <= OnHand(st.onHand, p)
    ensures ApplyBatch(st, products, qty, s).Failed? ==> ApplyBatch(st, products, qty, s) == Failed(InsufficientStock)
    decreases |products|
  {
    if products != [] {
      var p, rest := products[0], products[1..];
      assert products == [p] + rest;
      var moved := ApplyMove(st, p, -qty[p], Some(s));
      if moved.Done? {
        var next := moved.value;
        forall q | q in rest
          ensures q in products && !HasMove(next.moves, s, q) && OnHand(next.onHand, q) == OnHand(st.onHand, q) {}
        BatchOutcome(next, rest, qty, s);
        assert forall q :: q in products <==> q == p || q in rest;
      }
    }
  }

  /** A batch that goes through moves each of its products once, by its quantity. */
  lemma {:induction false} BatchAmounts(st: Stock, products: seq<Id>, qty: map<Id, int>, s: Source, p: Id)
    requires NoRepeat(products) && forall q :: q in products ==> q in qty
    requires ApplyBatch(st, products, qty, s).Done?
    ensures var after := ApplyBatch(st, products, qty, s).value;
            var taken := if p in products then qty[p] else 0;
            && OnHand(after.onHand, p) == OnHand(st.onHand, p) - taken
            && Moved(after.moves, p) == Moved(st.moves, p) - taken
            && |after.moves| == |st.moves| + |products|
            && st.moves <= after.moves
            && (p in products ==> HasMove(after.moves, s, p))
    decreases |products|
  {
    if products != [] {
      var first, rest := products[0], products[1..];
      assert products == [first] + rest;
      var next := ApplyMove(st, first, -qty[first], Some(s)).value;
      BatchAmounts(next, rest, qty, s, p);
      MovedAppend(st.moves, Move(first, -qty[first], Some(s)), p);
      var after := ApplyBatch(st, products, qty, s).value;
      assert after.moves[|st.moves|] == Move(first, -qty[first], Some(s));
      assert after.moves[|st.moves|] in after.moves;
    }
  }

  lemma {:induction false} BatchSources(st: Stock, products: seq<Id>, qty: map<Id, int>, s: Source)
    requires forall q :: q in products ==> q in qty
    requires ApplyBatch(st, products, qty, s).Done?
    ensures forall m :: m in ApplyBatch(st, products, qty, s).value.moves ==> m in st.moves || m.source == Some(s)
    decreases |products|
  {
    if products != [] {
      BatchSources(ApplyMove(st, products[0], -qty[products[0]], Some(s)).value, products[1..], qty, s);
    }
  }

  lemma MovedAppend(moves: seq<Move>, m: Move, p: Id)
    ensures Moved(moves + [m], p) == Moved(moves, p) + if m.product == p then m.delta else 0
  {
    assert (moves + [m])[..|moves|] == moves;
  }

  /** The aggregated dictionary covers the lines exactly when the lines are covered. */
  lemma CoveredByProduct(onHand: map<Id, int>, lines: seq<ShippedLine>)
    requires forall l :: l in lines ==> l.qty > 0
    ensures var qty := QtyByProduct(lines);
            Covered(onHand, lines) <==> forall p :: p in Ascending(qty.Keys) ==> qty[p] <= OnHand(onHand, p)
  {
    var qty := QtyByProduct(lines);
    QtyIsDemand(lines);
    forall p | p in qty ensures qty[p] == Demand(lines, p) { assert OnHand(qty, p) == Demand(lines, p); }
    forall l | l in lines ensures l.product in Ascending(qty.Keys) {}
    forall p | p in Ascending(qty.Keys) ensures exists l :: l in lines && l.product == p {}
  }

  /** First delivery of a shipment, whatever its lines: it succeeds iff every product's
      summed quantity is on hand, it then lowers each product by exactly that sum with
      one move per product, and otherwise it fails for lack of stock. */
  lemma FirstDelivery(st: Stock, lines: seq<ShippedLine>, s: Source)
    requires forall l :: l in lines ==> l.qty > 0
    requires !HasMoveFor(st.moves, s)
    ensures Ship(st, lines, s).Done? <==> Covered(st.onHand, lines)
    ensures !Covered(st.onHand, lines) ==> Ship(st, lines, s) == Failed(InsufficientStock)
    ensures Covered(st.onHand, lines) ==>
              var after := Ship(st, lines, s).value;
              && (forall p :: OnHand(after.onHand, p) == OnHand(st.onHand, p) - Demand(lines, p))
              && (forall p :: Moved(after.moves, p) == Moved(st.moves, p) - Demand(lines, p))
              && |after.moves| == |st.moves| + |set l | l in lines :: l.product|
              && st.moves <= after.moves
  {
    hide Ship, Covered, Demand, OnHand, Moved, HasMoveFor;
    FirstDeliveryOutcome(st, lines, s);
    if Covered(st.onHand, lines) { FirstDeliveryEffect(st, lines, s); }
  }

  lemma FirstDeliveryOutcome(st: Stock, lines: seq<ShippedLine>, s: Source)
    requires forall l :: l in lines ==> l.qty > 0
    requires !HasMoveFor(st.moves, s)
    ensures Ship(st, lines, s).Done? <==> Covered(st.onHand, lines)
    ensures !Covered(st.onHand, lines) ==> Ship(st, lines, s) == Failed(InsufficientStock)
    ensures Ship(st, lines, s).Done? ==>
              ApplyBatch(st, Ascending(QtyByProduct(lines).Keys), QtyByProduct(lines), s).Done?
  {
    hide Moved, ApplyBatch, Demand, QtyByProduct, OnHand, Covered, HasMove, HasMoveFor, NoRepeat;
    var qty := QtyByProduct(lines);
    CoveredByProduct(st.onHand, lines);
    BatchIsPositive(lines);
    NothingMovedFor(st.moves, s);
    BatchOutcome(st, Ascending(qty.Keys), qty, s);
  }

  lemma BatchIsPositive(lines: seq<ShippedLine>)
    requires forall l :: l in lines ==> l.qty > 0
    ensures var qty := QtyByProduct(lines);
            && NoRepeat(Ascending(qty.Keys))
            && (forall p :: p in Ascending(qty.Keys) ==> p in qty && qty[p] > 0)
  {
    hide QtyByProduct, Demand, OnHand;
    QtyIsDemand(lines);
    AscendingNoRepeat(Ascending(QtyByProduct(lines).Keys));
  }

  lemma NothingMovedFor(moves: seq<Move>, s: Source)
    requires !HasMoveFor(moves, s)
    ensures forall p :: !HasMove(moves, s, p)
  {
  }

  lemma FirstDeliveryEffect(st: Stock, lines: seq<ShippedLine>, s: Source)
    requires forall l :: l in lines ==> l.qty > 0
    requires ApplyBatch(st, Ascending(QtyByProduct(lines).Keys), QtyByProduct(lines), s).Done?
    ensures var after := Ship(st, lines, s).value;
            && (forall p :: OnHand(after.onHand, p) == OnHand(st.onHand, p) - Demand(lines, p))
            && (forall p :: Moved(after.moves, p) == Moved(st.moves, p) - Demand(lines, p))
            && |after.moves| == |st.moves| + |set l | l in lines :: l.product|
            && st.moves <= after.moves
  {
    hide ApplyBatch, QtyByProduct, Demand, OnHand, Moved;
    forall p
      ensures OnHand(Ship(st, lines, s).value.onHand, p) == OnHand(st.onHand, p) - Demand(lines, p)
      ensures Moved(Ship(st, lines, s).value.moves, p) == Moved(st.moves, p) - Demand(lines, p)
    {
      FirstDeliveryAmounts(st, lines, s, p);
    }
    FirstDeliveryAmounts(st, lines, s, 0);
  }

  lemma FirstDeliveryAmounts(st: Stock, lines: seq<ShippedLine>, s: Source, p: Id)
    requires forall l :: l in lines ==> l.qty > 0
    requires ApplyBatch(st, Ascending(QtyByProduct(lines).Keys), QtyByProduct(lines), s).Done?
    ensures var after := Ship(st, lines, s).value;
            && OnHand(after.onHand, p) == OnHand(st.onHand, p) - Demand(lines, p)
            && Moved(after.moves, p) == Moved(st.moves, p) - Demand(lines, p)
            && |after.moves| == |st.moves| + |set l | l in lines :: l.product|
            && st.moves <= after.moves
  {
    hide Moved, ApplyBatch, Demand, QtyByProduct;
    var qty := QtyByProduct(lines);
    var products := Ascending(qty.Keys);
    QtyIsDemand(lines);
    AscendingNoRepeat(products);
    assert OnHand(qty, p) == Demand(lines, p);
    BatchAmounts(st, products, qty, s, p);
    ListingLength(products, qty.Keys);
  }

  /** After a first delivery every shipped product carries a move under the shipment's
      key, and no move appears under any other key. */
  lemma FirstDeliveryMoves(st: Stock, lines: seq<ShippedLine>, s: Source)
    requires forall l :: l in lines ==> l.qty > 0
    requires !HasMoveFor(st.moves, s) && Ship(st, lines, s).Done?
    ensures var after := Ship(st, lines, s).value;
            && (forall l :: l in lines ==> HasMove(after.moves, s, l.product))
            && (forall m :: m in after.moves ==> m in st.moves || m.source == Some(s))
  {
    var qty := QtyByProduct(lines);
    var products := Ascending(qty.Keys);
    QtyIsDemand(lines);
    AscendingNoRepeat(products);
    BatchOutcome(st, products, qty, s);
    BatchSources(st, products, qty, s);
    forall l | l in lines ensures HasMove(Ship(st, lines, s).value.moves, s, l.product) {
      assert l.product in qty;
      BatchAmounts(st, products, qty, s, l.product);
    }
  }

  /** The naive deduction, one line after the other in the given order. */
  function LineByLine(onHand: map<Id, int>, lines: seq<ShippedLine>): Option<map<Id, int>> {
    if lines == [] then Some(onHand) else
    var last := lines[|lines| - 1];
    match LineByLine(onHand, lines[..|lines| - 1])
    case None => None
    case Some(left) =>
      if OnHand(left, last.product) < last.qty then None
      else Some(left[last.product := OnHand(left, last.product) - last.qty])
  }

  lemma {:induction false} DemandMonotone(lines: seq<ShippedLine>, n: nat, p: Id)
    requires n <= |lines| && forall l :: l in lines ==> l.qty > 0
    ensures 0 <= Demand(lines[..n], p) <= Demand(lines, p)
    decreases |lines|
  {
    if n == |lines| {
      assert lines[..n] == lines;
      if lines != [] {
        assert lines[|lines| - 1] in lines;
        DemandMonotone(lines[..|lines| - 1], |lines| - 1, p);
        assert lines[..|lines| - 1][..|lines| - 1] == lines[..|lines| - 1];
      }
    } else {
      assert lines[|lines| - 1] in lines;
      DemandMonotone(lines[..|lines| - 1], n, p);
      assert lines[..|lines| - 1][..n] == lines[..n];
    }
  }

  /** The batch has the outcome of line-by-line deduction in any order: that outcome
      depends only on each product's summed quantity. */
  lemma {:induction false} LineByLineIsCovered(onHand: map<Id, int>, lines: seq<ShippedLine>)
    requires forall l :: l in lines ==> l.qty > 0
    ensures LineByLine(onHand, lines).Some? <==> Covered(onHand, lines)
    ensures LineByLine(onHand, lines).Some? ==>
              forall p :: OnHand(LineByLine(onHand, lines).value, p) == OnHand(onHand, p) - Demand(lines, p)
  {
    if lines != [] {
      var front, last := lines[..|lines| - 1], lines[|lines| - 1];
      assert lines == front + [last];
      LineByLineIsCovered(onHand, front);
      forall p ensures Demand(front, p) <= Demand(lines, p) { DemandMonotone(lines, |front|, p); }
      assert Covered(onHand, lines) <==>
             Covered(onHand, front) && Demand(lines, last.product) <= OnHand(onHand, last.product) by {
        forall l | l in front ensures l in lines {}
        assert last in lines;
      }
    }
  }

  function Without(lines: seq<ShippedLine>, k: nat): seq<ShippedLine>
    requires k < |lines|
  {
    lines[..k] + lines[k + 1..]
  }

  lemma WithoutOne(lines: seq<ShippedLine>, k: nat, p: Id)
    requires k < |lines|
    ensures multiset(Without(lines, k)) == multiset(lines) - multiset{lines[k]}
    ensures Demand(lines, p) == Demand(Without(lines, k), p) + if lines[k].product == p then lines[k].qty else 0
  {
    var x, y := lines[..k], lines[k + 1..];
    assert lines == x + [lines[k]] + y;
    DemandConcat(x + [lines[k]], y, p);
    DemandConcat(x, [lines[k]], p);
    DemandConcat(x, y, p);
    assert [lines[k]][..0] == [];
  }

  lemma {:induction false} DemandOfPermutation(x: seq<ShippedLine>, y: seq<ShippedLine>, p: Id)
    requires multiset(x) == multiset(y)
    ensures Demand(x, p) == Demand(y, p)
    decreases |x|
  {
    if x == [] {
      assert |multiset(y)| == 0;
    } else {
      assert x[0] in multiset(y);
      var k :| 0 <= k < |y| && y[k] == x[0];
      WithoutOne(x, 0, p);
      WithoutOne(y, k, p);
      DemandOfPermutation(Without(x, 0), Without(y, k), p);
    }
  }

  lemma {:induction false} DemandConcat(x: seq<ShippedLine>, y: seq<ShippedLine>, p: Id)
    ensures Demand(x + y, p) == Demand(x, p) + Demand(y, p)
  {
    if y == [] {
      assert x + y == x;
    } else {
      assert (x + y)[..|x + y| - 1] == x + y[..|y| - 1];
      DemandConcat(x, y[..|y| - 1], p);
    }
  }

  /** First delivery agrees with line-by-line deduction of the lines in any order. */
  lemma AnyLineOrder(st: Stock, lines: seq<ShippedLine>, reordered: seq<ShippedLine>, s: Source)
    requires forall l :: l in lines ==> l.qty > 0
    requires !HasMoveFor(st.moves, s) && multiset(lines) == multiset(reordered)
    ensures Ship(st, lines, s).Done? <==> LineByLine(st.onHand, reordered).Some?
    ensures Ship(st, lines, s).Done? ==>
              forall p :: OnHand(Ship(st, lines, s).value.onHand, p) ==
                          OnHand(LineByLine(st.onHand, reordered).value, p)
  {
    FirstDelivery(st, lines, s);
    forall l | l in reordered ensures l in lines && l.qty > 0 { assert l in multiset(reordered); }
    forall l | l in lines ensures l in reordered { assert l in multiset(lines); }
    LineByLineIsCovered(st.onHand, reordered);
    forall p ensures Demand(lines, p) == Demand(reordered, p) { DemandOfPermutation(lines, reordered, p); }
  }

  lemma {:induction false} QtyKeys(lines: seq<ShippedLine>)
    ensures QtyByProduct(lines).Keys == set l | l in lines :: l.product
  {
    if lines != [] {
      var front, last := lines[..|lines| - 1], lines[|lines| - 1];
      assert lines == front + [last];
      QtyKeys(front);
    }
  }

  /** A batch that meets a product its source already moved cannot go through. */
  lemma {:induction false} BatchStops(st: Stock, products: seq<Id>, qty: map<Id, int>, s: Source, p: Id)
    requires forall q :: q in products ==> q in qty
    requires p in products && HasMove(st.moves, s, p)
    ensures ApplyBatch(st, products, qty, s).Failed?
    decreases |products|
  {
    var first := products[0];
    var moved := ApplyMove(st, first, -qty[first], Some(s));
    if moved.Done? {
      assert first != p;
      assert products == [first] + products[1..];
      var m :| m in st.moves && m.source == Some(s) && m.product == p;
      assert m in moved.value.moves;
      BatchStops(moved.value, products[1..], qty, s, p);
    }
  }

  /** The shipment was delivered before, at least in part. */
  predicate Delivered(moves: seq<Move>, lines: seq<ShippedLine>, s: Source) {
    lines == [] || exists l :: l in lines && HasMove(moves, s, l.product)
  }

  /** Redelivering a shipment, any line of which moved already, moves nothing: it is
      skipped, or it aborts because the sufficiency check runs before the unique index. */
  lemma RedeliveryMovesNothing(st: Stock, lines: seq<ShippedLine>, s: Source)
    requires Delivered(st.moves, lines, s)
    ensures Ship(st, lines, s) == Done(st) || Ship(st, lines, s).Failed?
  {
    var qty := QtyByProduct(lines);
    QtyKeys(lines);
    if lines != [] {
      var l :| l in lines && HasMove(st.moves, s, l.product);
      assert l.product in qty;
      BatchStops(st, Ascending(qty.Keys), qty, s, l.product);
    }
  }

  /** The batch gets past the sufficiency check of every product before the first one its
      source moved, and of that one too. */
  predicate MeetsDuplicate(st: Stock, products: seq<Id>, qty: map<Id, int>, s: Source)
    requires forall p :: p in products ==> p in qty
    decreases |products|
  {
    && products != [] && qty[products[0]] != 0 && qty[products[0]] <= OnHand(st.onHand, products[0])
    && (HasMove(st.moves, s, products[0]) || MeetsDuplicate(st, products[1..], qty, s))
  }

  lemma {:induction false} MeetsDuplicateElsewhere(st: Stock, next: Stock, products: seq<Id>, qty: map<Id, int>,
                                                   s: Source)
    requires forall p :: p in products ==> p in qty
    requires forall p :: p in products ==>
               && OnHand(next.onHand, p) == OnHand(st.onHand, p)
               && (HasMove(next.moves, s, p) <==> HasMove(st.moves, s, p))
    ensures MeetsDuplicate(next, products, qty, s) <==> MeetsDuplicate(st, products, qty, s)
    decreases |products|
  {
    hide HasMove;
    if products != [] {
      assert products[0] in products;
      MeetsDuplicateElsewhere(st, next, products[1..], qty, s);
    }
  }

  /** The unique index is what stops a batch exactly when the batch gets that far. */
  lemma {:induction false} BatchConflictsIff(st: Stock, products: seq<Id>, qty: map<Id, int>, s: Source)
    requires NoRepeat(products) && forall p :: p in products ==> p in qty
    ensures ApplyBatch(st, products, qty, s) == Failed(SourceConflict) <==> MeetsDuplicate(st, products, qty, s)
    decreases |products|
  {
    if products != [] {
      var p, rest := products[0], products[1..];
      var moved := ApplyMove(st, p, -qty[p], Some(s));
      if moved.Done? {
        MoveSparesOthers(st, p, -qty[p], s, rest);
        BatchConflictsIff(moved.value, rest, qty, s);
        MeetsDuplicateElsewhere(st, moved.value, rest, qty, s);
      }
    }
  }

  lemma MoveSparesOthers(st: Stock, p: Id, delta: int, s: Source, others: seq<Id>)
    requires p !in others && ApplyMove(st, p, delta, Some(s)).Done?
    ensures var next := ApplyMove(st, p, delta, Some(s)).value;
            forall q :: q in others ==>
              && OnHand(next.onHand, q) == OnHand(st.onHand, q)
              && (HasMove(next.moves, s, q) <==> HasMove(st.moves, s, q))
  {
  }

  /** When a redelivery returns normally: exactly when the batch reaches the duplicate. On
      every other redelivery the sufficiency check (or an empty line) aborts it first. */
  lemma RedeliverySkipsIff(st: Stock, lines: seq<ShippedLine>, s: Source)
    requires Delivered(st.moves, lines, s)
    ensures var qty := QtyByProduct(lines);
            Ship(st, lines, s) == Done(st) <==> lines == [] || MeetsDuplicate(st, Ascending(qty.Keys), qty, s)
  {
    var qty := QtyByProduct(lines);
    var products := Ascending(qty.Keys);
    QtyKeys(lines);
    AscendingNoRepeat(products);
    BatchConflictsIff(st, products, qty, s);
    if lines != [] {
      var l :| l in lines && HasMove(st.moves, s, l.product);
      assert l.product in qty;
      BatchStops(st, products, qty, s, l.product);
    }
  }

  /** The product whose row a shipment locks and checks first. */
  function FirstProduct(lines: seq<ShippedLine>): (p: Id)
    requires lines != []
    ensures exists l :: l in lines && l.product == p
  {
    QtyKeys(lines);
    assert lines[0].product in QtyByProduct(lines);
    Ascending(QtyByProduct(lines).Keys)[0]
  }

  /** A shipment all of whose products moved is skipped on redelivery iff its first product
      is still on hand in the shipped quantity; the other products do not matter. */
  lemma FullRedeliverySkipsIff(st: Stock, lines: seq<ShippedLine>, s: Source)
    requires lines != [] && forall l :: l in lines ==> l.qty > 0 && HasMove(st.moves, s, l.product)
    ensures Ship(st, lines, s) == Done(st) <==>
              Demand(lines, FirstProduct(lines)) <= OnHand(st.onHand, FirstProduct(lines))
    ensures Ship(st, lines, s) == Done(st) || Ship(st, lines, s) == Failed(InsufficientStock)
  {
    var qty := QtyByProduct(lines);
    var p := FirstProduct(lines);
    QtyIsDemand(lines);
    assert lines[0] in lines;
    assert OnHand(qty, p) == Demand(lines, p);
    var l :| l in lines && l.product == p;
    RedeliverySkipsIff(st, lines, s);
  }

  /** A batch refused by the unique index met a move that was there before it. */
  lemma {:induction false} BatchConflict(st: Stock, products: seq<Id>, qty: map<Id, int>, s: Source)
    requires NoRepeat(products) && forall q :: q in products ==> q in qty
    requires ApplyBatch(st, products, qty, s) == Failed(SourceConflict)
    ensures exists p :: p in products && HasMove(st.moves, s, p)
    decreases |products|
  {
    var first := products[0];
    if !HasMove(st.moves, s, first) {
      var next := ApplyMove(st, first, -qty[first], Some(s)).value;
      BatchConflict(next, products[1..], qty, s);
      var p :| p in products[1..] && HasMove(next.moves, s, p);
      assert p in products && HasMove(st.moves, s, p);
    }
  }

  /** Any delivery that does not abort leaves the shipment delivered. */
  lemma ShipDelivers(st: Stock, lines: seq<ShippedLine>, s: Source)
    requires Ship(st, lines, s).Done?
    ensures Delivered(Ship(st, lines, s).value.moves, lines, s)
    ensures st.moves <= Ship(st, lines, s).value.moves
  {
    var qty := QtyByProduct(lines);
    var products := Ascending(qty.Keys);
    QtyKeys(lines);
    AscendingNoRepeat(products);
    if lines != [] {
      assert lines[0].product in qty;
      if ApplyBatch(st, products, qty, s).Done? {
        BatchAmounts(st, products, qty, s, lines[0].product);
        assert lines[0] in lines;
      } else {
        BatchConflict(st, products, qty, s);
        var p :| p in products && HasMove(st.moves, s, p);
        var l :| l in lines && l.product == p;
      }
    }
  }

  // ---------------------------------------------------------------------------
  // The service
  // ---------------------------------------------------------------------------

  class InventoryService {
    var onHand: map<Id, int>
    var moves: seq<Move>

    ghost function State(): Stock
      reads this
    {
      Stock(onHand, moves)
    }

    constructor ()
      ensures State() == Stock(map[], [])
    {
      onHand, moves := map[], [];
    }

    method GetOrLockSummary(p: Id) returns (row: int)
      modifies this`onHand
      ensures row == OnHand(old(onHand), p)
      ensures onHand == old(onHand)[p := row]
    {
      if p !in onHand { onHand := onHand[p := 0]; }
      row := onHand[p];
      assert onHand == old(onHand)[p := row];
    }

    /** Never commits: after a failure the caller must roll back the row it may have
        created. */
    method ApplyStockMove(p: Id, delta: int, source: Option<Source>) returns (error: Option<Error>)
      modifies this
      ensures match ApplyMove(old(State()), p, delta, source)
              case Done(after) => error == None && State() == after
              case Failed(e) => error == Some(e) && moves == old(moves)
    {
      var row := GetOrLockSummary(p);
      var newOnHand := row + delta;
      if newOnHand < 0 { return Some(InsufficientStock); }
      if delta == 0 { return Some(CheckViolation); }
      if source.Some? && exists m :: m in moves && m.source == Some(source.value) && m.product == p {
        return Some(SourceConflict);
      }
      moves := moves + [Move(p, delta, source)];
      onHand := onHand[p := newOnHand];
      assert onHand == old(onHand)[p := newOnHand];
      return None;
    }

    method CreateAdjustment(products: set<Id>, p: Id, delta: int) returns (error: Option<Error>)
      modifies this
      ensures p !in products ==> error == Some(Rejected) && State() == old(State())
      ensures p in products ==>
                match ApplyMove(old(State()), p, delta, None)
                case Done(after) => error == None && State() == after
                case Failed(e) => error == Some(e) && State() == old(State())
    {
      if p !in products { return Some(Rejected); }
      var savedOnHand := onHand;
      error := ApplyStockMove(p, delta, None);
      if error.Some? { onHand := savedOnHand; }
    }

    static method AggregateByProduct(lines: seq<ShippedLine>) returns (qtyByProduct: map<Id, int>)
      ensures qtyByProduct == QtyByProduct(lines)
    {
      qtyByProduct := map[];
      for i := 0 to |lines|
        invariant qtyByProduct == QtyByProduct(lines[..i])
      {
        var p := lines[i].product;
        assert lines[..i + 1][..i] == lines[..i];
        qtyByProduct := qtyByProduct[p := (if p in qtyByProduct then qtyByProduct[p] else 0) + lines[i].qty];
      }
      assert lines[..|lines|] == lines;
    }

    /** One move per product, stopping at the first failure. */
    method ApplyMoves(products: seq<Id>, qty: map<Id, int>, s: Source) returns (error: Option<Error>)
      requires forall p :: p in products ==> p in qty
      modifies this
      ensures match ApplyBatch(old(State()), products, qty, s)
              case Done(after) => error == None && State() == after
              case Failed(e) => error == Some(e)
    {
      var todo := products;
      while todo != []
        invariant forall p :: p in todo ==> p in qty
        invariant ApplyBatch(State(), todo, qty, s) == ApplyBatch(old(State()), products, qty, s)
        decreases |todo|
      {
        var p := todo[0];
        error := ApplyStockMove(p, -qty[p], Some(s));
        if error.Some? { return; }
        todo := todo[1..];
      }
      return None;
    }

    /** The shipment batch inside one savepoint. */
    method HandleGoodsShipped(lines: seq<ShippedLine>, s: Source) returns (error: Option<Error>)
      modifies this
      ensures match Ship(old(State()), lines, s)
              case Done(after) => error == None && State() == after
              case Failed(e) => error == Some(e) && State() == old(State())
    {
      hide QtyByProduct, ApplyBatch;
      var qty := AggregateByProduct(lines);
      var savedOnHand, savedMoves := onHand, moves;
      error := ApplyMoves(Ascending(qty.Keys), qty, s);
      if error.Some? {
        onHand, moves := savedOnHand, savedMoves;
        if error == Some(SourceConflict) { error := None; }
      }
    }

    /** Overwrites every summary row, in whatever order the set is walked. */
    static method OverwriteRows(existing: map<Id, int>, totals: map<Id, int>) returns (rows: map<Id, int>, updated: nat)
      ensures forall p :: p in rows <==> p in existing || p in totals
      ensures forall p :: p in rows ==> rows[p] == OnHand(totals, p)
      ensures updated == |existing.Keys + totals.Keys|
    {
      rows := existing;
      var all := existing.Keys + totals.Keys;
      var todo := all;
      updated := 0;
      while todo != {}
        invariant todo <= all && updated == |all| - |todo|
        invariant forall p :: p in rows <==> p in existing || (p in all && p !in todo)
        invariant forall p :: p in all && p !in todo ==> rows[p] == OnHand(totals, p)
        decreases |todo|
      {
        var p :| p in todo;
        rows := rows[p := if p in totals then totals[p] else 0];
        updated := updated + 1;
        todo := todo - {p};
      }
    }

    /** The rebuild transaction: a negative total fails the CHECK when it is flushed. */
    method RebuildCompany() returns (error: Option<Error>, updated: nat)
      modifies this`onHand
      ensures match Rebuild(old(State()))
              case Done(after) => error == None && State() == after && updated == |after.onHand.Keys|
              case Failed(e) => error == Some(e) && State() == old(State())
    {
      var saved := onHand;
      onHand, updated := OverwriteRows(onHand, MovedTotals(moves));
      OverwrittenIsTotals(old(State()), onHand);
      if exists p :: p in onHand && onHand[p] < 0 {
        onHand := saved;
        error := Some(CheckViolation);
      } else {
        error := None;
      }
    }
  }
}
