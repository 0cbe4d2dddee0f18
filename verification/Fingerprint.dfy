/** The text an allocation command is fingerprinted by. SHA-256 is taken as injective,
    so the fingerprint is the text itself. */
module Fingerprint {
  import opened Common

  /** One line of an allocation request; the amount is in 10^-6 units. */
  datatype Target = Target(invoice: Id, amount: nat)

  // ---------------------------------------------------------------------------
  // str() of a UUID and of a six-decimal amount
  // ---------------------------------------------------------------------------

  const DIGITS := "0123456789abcdef"

  function DigitValue(c: char): nat {
    if '0' <= c <= '9' then (c - '0') as nat
    else if 'a' <= c <= 'f' then (c - 'a') as nat + 10
    else 0
  }

  /** `n` in the given base, zero-padded to at least `width` digits. */
  function Digits(base: nat, n: nat, width: nat): (s: string)
    requires 2 <= base <= 16
    ensures |s| >= width
    ensures forall c :: c in s ==> c in DIGITS
    decreases n, width
  {
    if n == 0 && width == 0 then "" else
    DivMod(base, n);
    assert DIGITS[n % base] in DIGITS;
    Digits(base, n / base, if width == 0 then 0 else width - 1) + [DIGITS[n % base]]
  }

  lemma DivMod(base: nat, n: nat)
    requires base > 0
    ensures base * (n / base) + n % base == n && n % base < base
    ensures base >= 2 && n > 0 ==> n / base < n
    ensures n == 0 ==> n / base == 0
  {
  }

  /** The canonical 8-4-4-4-12 form. */
  function IdText(id: Id): string {
    var s := Digits(16, id, 32);
    s[..8] + "-" + s[8..12] + "-" + s[12..16] + "-" + s[16..20] + "-" + s[20..]
  }

  /** A Decimal with exactly six fractional digits. */
  function AmountText(amount: nat): string {
    var s := Digits(10, amount, 7);
    s[..|s| - 6] + "." + s[|s| - 6..]
  }

  /** Reading the digits of `s` back, skipping the separator. */
  function Value(base: nat, skip: char, s: string): nat {
    if s == "" then 0 else
    var front, last := s[..|s| - 1], s[|s| - 1];
    if last == skip then Value(base, skip, front) else base * Value(base, skip, front) + DigitValue(last)
  }

  lemma {:induction false} ValueOfDigits(base: nat, skip: char, n: nat, width: nat)
    requires 2 <= base <= 16 && skip !in DIGITS
    ensures Value(base, skip, Digits(base, n, width)) == n
    decreases n, width
  {
    if n != 0 || width != 0 {
      var w := if width == 0 then 0 else width - 1;
      var front, digit := Digits(base, n / base, w), DIGITS[n % base];
      DivMod(base, n);
      ValueOfDigits(base, skip, n / base, w);
      assert digit in DIGITS;
      ValueOfNext(base, skip, front, digit);
      DigitRoundTrip(n % base);
      assert Digits(base, n, width) == front + [digit];
    }
  }

  lemma ValueOfNext(base: nat, skip: char, s: string, c: char)
    requires c != skip
    ensures Value(base, skip, s + [c]) == base * Value(base, skip, s) + DigitValue(c)
  {
    assert (s + [c])[..|s|] == s;
  }

  lemma DigitRoundTrip(d: nat)
    requires d < 16
    ensures DigitValue(DIGITS[d]) == d
  {
    assert DIGITS[0] == '0' && DIGITS[1] == '1' && DIGITS[2] == '2' && DIGITS[3] == '3';
    assert DIGITS[4] == '4' && DIGITS[5] == '5' && DIGITS[6] == '6' && DIGITS[7] == '7';
    assert DIGITS[8] == '8' && DIGITS[9] == '9' && DIGITS[10] == 'a' && DIGITS[11] == 'b';
    assert DIGITS[12] == 'c' && DIGITS[13] == 'd' && DIGITS[14] == 'e' && DIGITS[15] == 'f';
  }

  lemma {:induction false} SkipInside(base: nat, skip: char, a: string, b: string)
    ensures Value(base, skip, a + [skip] + b) == Value(base, skip, a + b)
  {
    if b == "" {
      assert a + [skip] + b == a + [skip] && a + b == a;
      assert (a + [skip])[..|a|] == a;
    } else {
      var front := b[..|b| - 1];
      SkipInside(base, skip, a, front);
      var x, y := a + [skip] + b, a + b;
      assert x[..|x| - 1] == a + [skip] + front && y[..|y| - 1] == a + front;
    }
  }

  /** The two texts can be read back, so they determine what they were made from. */
  lemma IdTextReadsBack(id: Id)
    ensures Value(16, '-', IdText(id)) == id
  {
    var s := Digits(16, id, 32);
    ValueOfDigits(16, '-', id, 32);
    var d1, d2, d3, d4, d5 := s[..8], s[8..12], s[12..16], s[16..20], s[20..];
    SkipFour(16, '-', d1, d2, d3, d4, d5);
    assert d1 + d2 + d3 + d4 + d5 == s;
  }

  lemma SkipFour(base: nat, skip: char, a: string, b: string, c: string, d: string, e: string)
    ensures Value(base, skip, a + [skip] + b + [skip] + c + [skip] + d + [skip] + e) ==
            Value(base, skip, a + b + c + d + e)
  {
    var abcd := a + [skip] + b + [skip] + c + [skip] + d;
    SkipInside(base, skip, abcd, e);
    assert abcd + e == (a + [skip] + b + [skip] + c) + [skip] + (d + e);
    SkipInside(base, skip, a + [skip] + b + [skip] + c, d + e);
    assert (a + [skip] + b + [skip] + c) + (d + e) == (a + [skip] + b) + [skip] + (c + d + e);
    SkipInside(base, skip, a + [skip] + b, c + d + e);
    assert (a + [skip] + b) + (c + d + e) == a + [skip] + (b + c + d + e);
    SkipInside(base, skip, a, b + c + d + e);
    assert a + (b + c + d + e) == a + b + c + d + e;
  }

  lemma AmountTextReadsBack(amount: nat)
    ensures Value(10, '.', AmountText(amount)) == amount
  {
    var s := Digits(10, amount, 7);
    ValueOfDigits(10, '.', amount, 7);
    SkipInside(10, '.', s[..|s| - 6], s[|s| - 6..]);
    assert s[..|s| - 6] + s[|s| - 6..] == s;
  }

  /** Neither text contains a separator of the joined form. */
  predicate Plain(s: string) {
    ':' !in s && '|' !in s
  }

  lemma TextsArePlain(id: Id, amount: nat)
    ensures Plain(IdText(id)) && Plain(AmountText(amount))
  {
    assert ':' !in DIGITS && '|' !in DIGITS;
  }

  // ---------------------------------------------------------------------------
  // Sorting and joining
  // ---------------------------------------------------------------------------

  datatype Pair = Pair(id: string, amount: string)

  predicate TextLe(s: string, t: string) {
    s == "" || (t != "" && (s[0] < t[0] || (s[0] == t[0] && TextLe(s[1..], t[1..]))))
  }

  predicate PairLe(p: Pair, q: Pair) {
    if p.id == q.id then TextLe(p.amount, q.amount) else TextLe(p.id, q.id)
  }

  lemma {:induction false} TextOrder(s: string, t: string, u: string)
    ensures TextLe(s, t) || TextLe(t, s)
    ensures TextLe(s, t) && TextLe(t, s) ==> s == t
    ensures TextLe(s, t) && TextLe(t, u) ==> TextLe(s, u)
    decreases |s|
  {
    if s != "" && t != "" {
      TextOrder(s[1..], t[1..], if u == "" then "" else u[1..]);
      assert s == [s[0]] + s[1..] && t == [t[0]] + t[1..];
    }
  }

  lemma PairOrder(p: Pair, q: Pair, r: Pair)
    ensures PairLe(p, q) || PairLe(q, p)
    ensures PairLe(p, q) && PairLe(q, p) ==> p == q
    ensures PairLe(p, q) && PairLe(q, r) ==> PairLe(p, r)
  {
    TextOrder(p.id, q.id, r.id);
    TextOrder(q.id, p.id, r.id);
    TextOrder(q.id, r.id, p.id);
    TextOrder(p.amount, q.amount, r.amount);
  }

  ghost predicate Sorted(q: seq<Pair>) {
    forall i, j :: 0 <= i < j < |q| ==> PairLe(q[i], q[j])
  }

  function Insert(p: Pair, q: seq<Pair>): (r: seq<Pair>)
    ensures multiset(r) == multiset(q) + multiset{p}
    decreases |q|
  {
    if q == [] then [p]
    else if PairLe(p, q[0]) then [p] + q
    else
      assert q == [q[0]] + q[1..];
      [q[0]] + Insert(p, q[1..])
  }

  lemma InsertMembers(p: Pair, q: seq<Pair>)
    ensures forall x :: x in Insert(p, q) ==> x == p || x in q
  {
    forall x | x in Insert(p, q) ensures x == p || x in q {
      assert x in multiset(Insert(p, q));
    }
  }

  lemma {:induction false} InsertKeepsSorted(p: Pair, q: seq<Pair>)
    requires Sorted(q)
    ensures Sorted(Insert(p, q))
    decreases |q|
  {
    if q != [] {
      PairOrder(p, q[0], p);
      if PairLe(p, q[0]) {
        forall i | 0 <= i < |q| ensures PairLe(p, q[i]) { PairOrder(p, q[0], q[i]); }
      } else {
        InsertKeepsSorted(p, q[1..]);
        InsertMembers(p, q[1..]);
        var rest := Insert(p, q[1..]);
        forall i | 0 <= i < |rest| ensures PairLe(q[0], rest[i]) {
          assert rest[i] in rest;
        }
      }
    }
  }

  /** Python's `sorted` on a list of string pairs. */
  function Sort(q: seq<Pair>): (r: seq<Pair>)
    ensures multiset(r) == multiset(q) && Sorted(r)
    decreases |q|
  {
    if q == [] then [] else
    assert q == [q[0]] + q[1..];
    InsertKeepsSorted(q[0], Sort(q[1..]));
    Insert(q[0], Sort(q[1..]))
  }

  lemma SortedHeadsAgree(a: seq<Pair>, b: seq<Pair>)
    requires Sorted(a) && Sorted(b) && multiset(a) == multiset(b) && a != [] && b != []
    ensures a[0] == b[0]
  {
    assert a[0] in multiset(b) && b[0] in multiset(a);
    var i :| 0 <= i < |b| && b[i] == a[0];
    var j :| 0 <= j < |a| && a[j] == b[0];
    PairOrder(a[0], b[0], a[0]);
    PairOrder(a[0], a[0], a[0]);
  }

  lemma {:induction false} SortedIsUnique(a: seq<Pair>, b: seq<Pair>)
    requires Sorted(a) && Sorted(b) && multiset(a) == multiset(b)
    ensures a == b
    decreases |a|
  {
    SameLength(a, b);
    if a != [] {
      SortedHeadsAgree(a, b);
      TailsAgree(a, b);
      SortedIsUnique(a[1..], b[1..]);
      assert a == [a[0]] + a[1..] && b == [b[0]] + b[1..];
    }
  }

  lemma SameLength<A>(a: seq<A>, b: seq<A>)
    requires multiset(a) == multiset(b)
    ensures |a| == |b|
  {
    assert |multiset(a)| == |a| && |multiset(b)| == |b|;
  }

  lemma TailsAgree<A>(a: seq<A>, b: seq<A>)
    requires multiset(a) == multiset(b) && a != [] && b != [] && a[0] == b[0]
    ensures multiset(a[1..]) == multiset(b[1..])
  {
    Tail(a);
    Tail(b);
  }

  lemma Tail<A>(a: seq<A>)
    requires a != []
    ensures multiset(a[1..]) == multiset(a) - multiset{a[0]}
  {
    assert a == [a[0]] + a[1..];
  }

  function Joined(q: seq<Pair>): string {
    if q == [] then ""
    else if |q| == 1 then q[0].id + ":" + q[0].amount
    else q[0].id + ":" + q[0].amount + "|" + Joined(q[1..])
  }

  /** A text splits at its first separator in one way only. */
  lemma SplitOnce(sep: char, a: string, b: string, c: string, d: string)
    requires sep !in a && sep !in c && a + [sep] + b == c + [sep] + d
    ensures a == c && b == d
  {
    var s := a + [sep] + b;
    assert s[|a|] == sep && s[|c|] == sep;
    assert forall i :: 0 <= i < |c| ==> s[i] == c[i] && s[i] != sep;
    assert forall i :: 0 <= i < |a| ==> s[i] == a[i] && s[i] != sep;
    assert a == s[..|a|] && c == s[..|c|];
    assert b == s[|a| + 1..] && d == s[|c| + 1..];
  }

  lemma JoinedHasBar(q: seq<Pair>)
    requires |q| > 1
    ensures '|' in Joined(q)
  {
    assert '|' in q[0].id + ":" + q[0].amount + "|";
  }

  lemma {:induction false} JoinedIsInjective(p: seq<Pair>, q: seq<Pair>)
    requires p != [] && q != [] && Joined(p) == Joined(q)
    requires forall x :: x in p || x in q ==> Plain(x.id) && Plain(x.amount)
    ensures p == q
    decreases |p|
  {
    var x, y := p[0].id + ":" + p[0].amount, q[0].id + ":" + q[0].amount;
    assert p[0] in p && q[0] in q;
    assert '|' !in x && '|' !in y;
    if |p| == 1 || |q| == 1 {
      if |p| > 1 { JoinedHasBar(p); }
      if |q| > 1 { JoinedHasBar(q); }
    } else {
      assert Joined(p) == x + ['|'] + Joined(p[1..]) && Joined(q) == y + ['|'] + Joined(q[1..]);
      SplitOnce('|', x, Joined(p[1..]), y, Joined(q[1..]));
      JoinedIsInjective(p[1..], q[1..]);
    }
    SplitOnce(':', p[0].id, p[0].amount, q[0].id, q[0].amount);
  }

  // ---------------------------------------------------------------------------
  // The fingerprint
  // ---------------------------------------------------------------------------

  function PairOf(t: Target): Pair { Pair(IdText(t.invoice), AmountText(t.amount)) }

  /** Reading a pair back. */
  function TargetOf(p: Pair): Target { Target(Value(16, '-', p.id), Value(10, '.', p.amount)) }

  function Map<A, B>(f: A -> B, q: seq<A>): (r: seq<B>)
    ensures |r| == |q| && forall i :: 0 <= i < |q| ==> r[i] == f(q[i])
  {
    if q == [] then [] else [f(q[0])] + Map(f, q[1..])
  }

  function FingerprintText(targets: seq<Target>): string {
    Joined(Sort(Map(PairOf, targets)))
  }

  lemma PairReadsBack(t: Target)
    ensures TargetOf(PairOf(t)) == t
  {
    IdTextReadsBack(t.invoice);
    AmountTextReadsBack(t.amount);
  }

  lemma TakeOut<A>(q: seq<A>, k: nat)
    requires k < |q|
    ensures multiset(q[..k] + q[k + 1..]) == multiset(q) - multiset{q[k]}
  {
    assert q == q[..k] + [q[k]] + q[k + 1..];
  }

  /** Mapping two rearrangements of one list gives rearrangements of one list. */
  lemma {:induction false} MapKeepsMultisets<A, B>(f: A -> B, x: seq<A>, y: seq<A>)
    requires multiset(x) == multiset(y)
    ensures multiset(Map(f, x)) == multiset(Map(f, y))
    decreases |x|
  {
    if x == [] {
      assert |multiset(y)| == 0;
    } else {
      assert x[0] in multiset(y);
      var k :| 0 <= k < |y| && y[k] == x[0];
      RestsAgree(x, y, k);
      MapKeepsMultisets(f, x[1..], y[..k] + y[k + 1..]);
      MapsAgree(f, x, y, k);
    }
  }

  lemma RestsAgree<A>(x: seq<A>, y: seq<A>, k: nat)
    requires multiset(x) == multiset(y) && x != [] && k < |y| && y[k] == x[0]
    ensures multiset(x[1..]) == multiset(y[..k] + y[k + 1..])
  {
    Tail(x);
    TakeOut(y, k);
  }

  lemma MapsAgree<A, B>(f: A -> B, x: seq<A>, y: seq<A>, k: nat)
    requires x != [] && k < |y| && y[k] == x[0]
    requires multiset(Map(f, x[1..])) == multiset(Map(f, y[..k] + y[k + 1..]))
    ensures multiset(Map(f, x)) == multiset(Map(f, y))
  {
    MapTakeOut(f, x, 0);
    MapTakeOut(f, y, k);
    assert x[..0] + x[1..] == x[1..];
  }

  lemma MapTakeOut<A, B>(f: A -> B, q: seq<A>, k: nat)
    requires k < |q|
    ensures var rest := q[..k] + q[k + 1..];
            && multiset(rest) == multiset(q) - multiset{q[k]}
            && multiset(Map(f, q)) == multiset(Map(f, rest)) + multiset{f(q[k])}
  {
    TakeOut(q, k);
    var m := Map(f, q);
    TakeOut(m, k);
    assert Map(f, q[..k] + q[k + 1..]) == m[..k] + m[k + 1..];
    assert m[k] in multiset(m);
  }

  /** The fingerprint of two non-empty commands agrees exactly when they are the same
      (invoice, amount) lines in some order. */
  lemma FingerprintIsExact(x: seq<Target>, y: seq<Target>)
    requires x != [] && y != []
    ensures FingerprintText(x) == FingerprintText(y) <==> multiset(x) == multiset(y)
  {
    var p, q := Sort(Map(PairOf, x)), Sort(Map(PairOf, y));
    assert |multiset(p)| == |x| && |multiset(q)| == |y|;
    if multiset(x) == multiset(y) {
      MapKeepsMultisets(PairOf, x, y);
      SortedIsUnique(p, q);
    } else if FingerprintText(x) == FingerprintText(y) {
      SortedArePlain(x);
      SortedArePlain(y);
      JoinedIsInjective(p, q);
      MapKeepsMultisets(TargetOf, Map(PairOf, x), Map(PairOf, y));
      ReadAllBack(x);
      ReadAllBack(y);
    }
  }

  lemma ReadAllBack(targets: seq<Target>)
    ensures Map(TargetOf, Map(PairOf, targets)) == targets
  {
    forall i | 0 <= i < |targets| ensures TargetOf(PairOf(targets[i])) == targets[i] {
      PairReadsBack(targets[i]);
    }
  }

  lemma SortedArePlain(targets: seq<Target>)
    ensures forall s :: s in Sort(Map(PairOf, targets)) ==> Plain(s.id) && Plain(s.amount)
  {
    var pairs := Map(PairOf, targets);
    forall s | s in Sort(pairs) ensures Plain(s.id) && Plain(s.amount) {
      assert s in multiset(pairs);
      var i :| 0 <= i < |targets| && pairs[i] == s;
      TextsArePlain(targets[i].invoice, targets[i].amount);
    }
  }
}
