/** Sums over finite maps and sets, and the ascending listing of a set of ids.
    Tables are maps from a row's id to the row, so every "sum over a table" of
    the programme is a `SumBy`. */
module Sums {

  /** Some key of a nonempty map. */
  ghost function Pick<K, V>(m: map<K, V>): (k: K)
    requires m != map[]
    ensures k in m
  {
    var k :| k in m;
    k
  }

  /** The sum of `f` over the rows of the table `m`. */
  ghost function SumBy<K, V>(m: map<K, V>, f: V -> int): int
    decreases |m|
  {
    if m == map[] then 0 else
    var k := Pick(m);
    f(m[k]) + SumBy(m - {k}, f)
  }

  lemma {:induction false} SumByRemove<K, V>(m: map<K, V>, f: V -> int, k: K)
    requires k in m
    ensures SumBy(m, f) == f(m[k]) + SumBy(m - {k}, f)
    decreases |m|
  {
    var p := Pick(m);
    if p != k {
      SumByRemove(m - {p}, f, k);
      SumByRemove(m - {k}, f, p);
      assert m - {p} - {k} == m - {k} - {p};
    }
  }

  /** Writing one row changes the sum by the change of that row. */
  lemma SumByUpdate<K, V>(m: map<K, V>, f: V -> int, k: K, v: V)
    ensures SumBy(m[k := v], f) == SumBy(m, f) - (if k in m then f(m[k]) else 0) + f(v)
  {
    SumByRemove(m[k := v], f, k);
    assert m[k := v] - {k} == m - {k};
    if k in m {
      SumByRemove(m, f, k);
    } else {
      assert m - {k} == m;
    }
  }

  lemma {:induction false} SumByCongruent<K, V>(m: map<K, V>, f: V -> int, g: V -> int)
    requires forall k :: k in m ==> f(m[k]) == g(m[k])
    ensures SumBy(m, f) == SumBy(m, g)
    decreases |m|
  {
    if m != map[] {
      SumByCongruent(m - {Pick(m)}, f, g);
    }
  }

  /** Two tables with the same keys whose rows agree on `f` have the same sum. */
  lemma {:induction false} SumBySame<K, V, W>(m: map<K, V>, n: map<K, W>, f: V -> int, g: W -> int)
    requires m.Keys == n.Keys
    requires forall k :: k in m ==> f(m[k]) == g(n[k])
    ensures SumBy(m, f) == SumBy(n, g)
    decreases |m|
  {
    if m == map[] {
      assert n == map[];
    } else {
      var k := Pick(m);
      assert (m - {k}).Keys == (n - {k}).Keys;
      SumBySame(m - {k}, n - {k}, f, g);
      SumByRemove(n, g, k);
    }
  }

  /** Two summands that differ on one row only. */
  lemma SumByChangeOne<K, V>(m: map<K, V>, f: V -> int, g: V -> int, k: K)
    requires k in m && forall j :: j in m && j != k ==> f(m[j]) == g(m[j])
    ensures SumBy(m, g) == SumBy(m, f) - f(m[k]) + g(m[k])
  {
    SumByRemove(m, f, k);
    SumByRemove(m, g, k);
    SumByCongruent(m - {k}, f, g);
  }

  lemma {:induction false} SumByAdd<K, V>(m: map<K, V>, f: V -> int, g: V -> int, h: V -> int)
    requires forall k :: k in m ==> h(m[k]) == f(m[k]) + g(m[k])
    ensures SumBy(m, h) == SumBy(m, f) + SumBy(m, g)
    decreases |m|
  {
    if m != map[] {
      SumByAdd(m - {Pick(m)}, f, g, h);
    }
  }

  ghost function Negated<V>(f: V -> int): V -> int {
    v => -f(v)
  }

  lemma {:induction false} SumByNegated<K, V>(m: map<K, V>, f: V -> int)
    ensures SumBy(m, Negated(f)) == -SumBy(m, f)
    decreases |m|
  {
    if m != map[] { SumByNegated(m - {Pick(m)}, f); }
  }

  lemma {:induction false} SumByNonNegative<K, V>(m: map<K, V>, f: V -> int)
    requires forall k :: k in m ==> f(m[k]) >= 0
    ensures SumBy(m, f) >= 0
    decreases |m|
  {
    if m != map[] {
      SumByNonNegative(m - {Pick(m)}, f);
    }
  }

  lemma {:induction false} SumByZero<K, V>(m: map<K, V>, f: V -> int)
    requires forall k :: k in m ==> f(m[k]) == 0
    ensures SumBy(m, f) == 0
    decreases |m|
  {
    if m != map[] {
      SumByZero(m - {Pick(m)}, f);
    }
  }

  /** Some element of a nonempty set. */
  ghost function PickFrom<K>(s: set<K>): (k: K)
    requires s != {}
    ensures k in s
  {
    var k :| k in s;
    k
  }

  /** The sum of `g` over the set `s`. */
  ghost function SumOver<K>(s: set<K>, g: K -> int): int
    decreases |s|
  {
    if s == {} then 0 else
    var k := PickFrom(s);
    g(k) + SumOver(s - {k}, g)
  }

  lemma {:induction false} SumOverRemove<K>(s: set<K>, g: K -> int, k: K)
    requires k in s
    ensures SumOver(s, g) == g(k) + SumOver(s - {k}, g)
    decreases |s|
  {
    var p := PickFrom(s);
    if p != k {
      SumOverRemove(s - {p}, g, k);
      SumOverRemove(s - {k}, g, p);
      assert s - {p} - {k} == s - {k} - {p};
    }
  }

  /** Changing `g` at one element changes the sum by that change. */
  lemma {:induction false} SumOverShift<K>(s: set<K>, g: K -> int, h: K -> int, k: K, d: int)
    requires k in s && h(k) == g(k) + d
    requires forall x :: x in s && x != k ==> h(x) == g(x)
    ensures SumOver(s, h) == SumOver(s, g) + d
  {
    SumOverRemove(s, g, k);
    SumOverRemove(s, h, k);
    SumOverCongruent(s - {k}, g, h);
  }

  lemma {:induction false} SumOverCongruent<K>(s: set<K>, g: K -> int, h: K -> int)
    requires forall x :: x in s ==> g(x) == h(x)
    ensures SumOver(s, g) == SumOver(s, h)
    decreases |s|
  {
    if s != {} {
      SumOverCongruent(s - {PickFrom(s)}, g, h);
    }
  }

  lemma {:induction false} SumOverZero<K>(s: set<K>, g: K -> int)
    requires forall x :: x in s ==> g(x) == 0
    ensures SumOver(s, g) == 0
    decreases |s|
  {
    if s != {} {
      SumOverZero(s - {PickFrom(s)}, g);
    }
  }

  /** `f` restricted to the rows that belong to group `c`. */
  ghost function InGroup<V, C>(key: V -> C, f: V -> int, c: C): V -> int
  {
    v => if key(v) == c then f(v) else 0
  }

  ghost function GroupSum<K, V, C>(m: map<K, V>, key: V -> C, f: V -> int): C -> int
  {
    c => SumBy(m, InGroup(key, f, c))
  }

  lemma GroupSumStep<K, V, C>(m: map<K, V>, key: V -> C, f: V -> int, c: C)
    requires m != map[]
    ensures var row := m[Pick(m)];
            GroupSum(m, key, f)(c) == GroupSum(m - {Pick(m)}, key, f)(c) + if key(row) == c then f(row) else 0
  {
    assert SumBy(m, InGroup(key, f, c)) ==
           InGroup(key, f, c)(m[Pick(m)]) + SumBy(m - {Pick(m)}, InGroup(key, f, c));
  }

  lemma GroupSumsShift<K, V, C>(m: map<K, V>, key: V -> C, f: V -> int, groups: set<C>)
    requires m != map[]
    requires key(m[Pick(m)]) in groups || f(m[Pick(m)]) == 0
    ensures SumOver(groups, GroupSum(m, key, f)) ==
            SumOver(groups, GroupSum(m - {Pick(m)}, key, f)) + f(m[Pick(m)])
  {
    var before, after := GroupSum(m - {Pick(m)}, key, f), GroupSum(m, key, f);
    var c, amount := key(m[Pick(m)]), f(m[Pick(m)]);
    forall x | x in groups ensures after(x) == before(x) + if x == c then amount else 0 {
      GroupSumStep(m, key, f, x);
    }
    if c in groups {
      SumOverShift(groups, before, after, c, amount);
    } else {
      SumOverCongruent(groups, before, after);
    }
  }

  /** GROUP BY loses nothing: adding the group sums gives the sum over all rows, as
      soon as every row that contributes lies in one of the groups. */
  lemma {:induction false} GroupSumsAddUp<K, V, C>(m: map<K, V>, key: V -> C, f: V -> int, groups: set<C>)
    requires forall k :: k in m ==> key(m[k]) in groups || f(m[k]) == 0
    ensures SumOver(groups, GroupSum(m, key, f)) == SumBy(m, f)
    decreases |m|
  {
    if m == map[] {
      EmptyGroups<K, V, C>(key, f, groups);
    } else {
      hide GroupSum, SumOver;
      GroupSumsAddUp(m - {Pick(m)}, key, f, groups);
      GroupSumsShift(m, key, f, groups);
      assert SumBy(m, f) == f(m[Pick(m)]) + SumBy(m - {Pick(m)}, f);
    }
  }

  lemma EmptyGroups<K, V, C>(key: V -> C, f: V -> int, groups: set<C>)
    ensures SumOver(groups, GroupSum<K, V, C>(map[], key, f)) == 0
  {
    SumOverZero(groups, GroupSum<K, V, C>(map[], key, f));
  }

  /** Summing a table keyed by the group is summing over the groups. */
  lemma {:induction false} SumByKeys<K, V>(m: map<K, V>, f: V -> int, g: K -> int)
    requires forall k :: k in m ==> f(m[k]) == g(k)
    ensures SumBy(m, f) == SumOver(m.Keys, g)
    decreases |m|
  {
    if m != map[] {
      var k := Pick(m);
      SumByKeys(m - {k}, f, g);
      assert (m - {k}).Keys == m.Keys - {k};
      SumOverRemove(m.Keys, g, k);
    }
  }

  /** `n` keeps the rows of `m` that contribute to the sum. */
  lemma {:induction false} SumByFiltered<K, V, W>(m: map<K, V>, n: map<K, W>, f: V -> int, g: W -> int)
    requires n.Keys <= m.Keys
    requires forall k :: k in m ==> f(m[k]) == if k in n then g(n[k]) else 0
    ensures SumBy(m, f) == SumBy(n, g)
    decreases |m|
  {
    if m == map[] {
      assert n == map[];
    } else {
      var k := Pick(m);
      SumByFiltered(m - {k}, n - {k}, f, g);
      if k in n {
        SumByRemove(n, g, k);
      } else {
        assert n - {k} == n;
      }
    }
  }

  lemma {:induction false} SumOverAdd<K>(s: set<K>, f: K -> int, g: K -> int, h: K -> int)
    requires forall x :: x in s ==> h(x) == f(x) + g(x)
    ensures SumOver(s, h) == SumOver(s, f) + SumOver(s, g)
    decreases |s|
  {
    if s != {} {
      SumOverAdd(s - {PickFrom(s)}, f, g, h);
    }
  }

  predicate IsLeast(x: nat, s: set<nat>) {
    x in s && forall y :: y in s ==> x <= y
  }

  /** A nonempty finite set of ids has a least element. */
  lemma {:induction false} LeastExists(s: set<nat>)
    requires s != {}
    ensures exists x :: IsLeast(x, s)
    decreases |s|
  {
    var p :| p in s;
    var rest := s - {p};
    if rest == {} {
      assert s == {p};
      assert IsLeast(p, s);
    } else {
      LeastExists(rest);
      var x :| IsLeast(x, rest);
      var least := if p < x then p else x;
      forall y | y in s ensures least <= y {
        assert y == p || y in rest;
      }
      assert IsLeast(least, s);
    }
  }

  /** Python's `sorted` on a set of ids: the strictly ascending listing. */
  function Ascending(s: set<nat>): (q: seq<nat>)
    ensures forall x :: x in q <==> x in s
    ensures forall i, j :: 0 <= i < j < |q| ==> q[i] < q[j]
    decreases |s|
  {
    if s == {} then [] else
    LeastExists(s);
    var x :| IsLeast(x, s);
    var rest := Ascending(s - {x});
    assert forall y :: y in s ==> y == x || y in rest;
    assert forall i :: 0 <= i < |rest| ==> rest[i] in s - {x};
    [x] + rest
  }

  /** A strictly ascending listing has as many entries as its set has elements. */
  lemma {:induction false} ListingLength(q: seq<nat>, s: set<nat>)
    requires forall x :: x in q <==> x in s
    requires forall i, j :: 0 <= i < j < |q| ==> q[i] < q[j]
    ensures |q| == |s|
  {
    if q == [] {
      assert s == {};
    } else {
      assert q[0] in q;
      var rest := q[1..];
      forall x ensures x in rest <==> x in s - {q[0]} {
        if x in rest {
          var k :| 0 <= k < |rest| && rest[k] == x;
          assert q[k + 1] == x && q[0] < q[k + 1];
          assert q[k + 1] in q;
        }
        if x in s - {q[0]} { var k :| 0 <= k < |q| && q[k] == x; assert rest[k - 1] == x; }
      }
      ListingLength(rest, s - {q[0]});
    }
  }

  // ---------------------------------------------------------------------------
  // Sums over lists
  // ---------------------------------------------------------------------------

  function SumOf<T>(q: seq<T>, f: T -> int): int {
    if q == [] then 0 else f(q[0]) + SumOf(q[1..], f)
  }

  lemma {:induction false} SumOfConcat<T>(x: seq<T>, y: seq<T>, f: T -> int)
    ensures SumOf(x + y, f) == SumOf(x, f) + SumOf(y, f)
    decreases |x|
  {
    if x == [] {
      assert x + y == y;
    } else {
      assert (x + y)[1..] == x[1..] + y;
      SumOfConcat(x[1..], y, f);
    }
  }

  /** The last member taken off. */
  lemma SumOfLast<T>(q: seq<T>, f: T -> int)
    requires q != []
    ensures SumOf(q, f) == SumOf(q[..|q| - 1], f) + f(q[|q| - 1])
  {
    var front, last := q[..|q| - 1], q[|q| - 1];
    assert q == front + [last] && [last][1..] == [];
    SumOfConcat(front, [last], f);
    assert SumOf([last], f) == f(last) + SumOf([], f);
  }

  lemma {:induction false} SumOfSame<T, U>(x: seq<T>, y: seq<U>, f: T -> int, g: U -> int)
    requires |x| == |y| && forall k :: 0 <= k < |x| ==> f(x[k]) == g(y[k])
    ensures SumOf(x, f) == SumOf(y, g)
    decreases |x|
  {
    if x != [] { SumOfSame(x[1..], y[1..], f, g); }
  }
}
