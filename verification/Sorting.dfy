/** Stable sorting with a comparison function, as slices.SortStableFunc does. */
module Sorting {

  /** Compares the elements at two positions: negative, zero or positive. */
  type Compare = (nat, nat) -> int

  /** cmp orders the positions below n. */
  ghost predicate IsOrder(cmp: Compare, n: nat) {
    && (forall a: nat, b: nat :: a < n && b < n ==> (cmp(a, b) < 0 <==> cmp(b, a) > 0))
    && (forall a: nat, b: nat, c: nat :: a < n && b < n && c < n && cmp(a, b) <= 0 && cmp(b, c) <= 0 ==> cmp(a, c) <= 0)
  }

  /** cmp.Or: the first comparison that decides. */
  function Or(a: int, b: int): int {
    if a != 0 then a else b
  }

  /** i comes before j: it compares less, or equal and it came first. */
  predicate Before(cmp: Compare, i: nat, j: nat) {
    cmp(i, j) < 0 || (cmp(i, j) == 0 && i < j)
  }

  /** The positions 0..n-1 in stable order. */
  function StableOrder(n: nat, cmp: Compare): (s: seq<nat>)
    ensures |s| == n
  {
    if n == 0 then [] else Place(StableOrder(n - 1, cmp), n - 1, cmp)
  }

  /** x goes after every element that does not compare greater. */
  function Place(s: seq<nat>, x: nat, cmp: Compare): (r: seq<nat>)
    ensures |r| == |s| + 1
  {
    if s == [] || cmp(s[|s| - 1], x) <= 0 then s + [x]
    else Place(s[..|s| - 1], x, cmp) + [s[|s| - 1]]
  }

  ghost predicate InOrder(s: seq<nat>, cmp: Compare) {
    forall p, q :: 0 <= p < q < |s| ==> Before(cmp, s[p], s[q])
  }

  lemma BeforeTransitive(cmp: Compare, n: nat, a: nat, b: nat, c: nat)
    requires IsOrder(cmp, n) && a < n && b < n && c < n
    requires Before(cmp, a, b) && cmp(b, c) <= 0 && (cmp(b, c) == 0 ==> b < c)
    ensures Before(cmp, a, c)
  {
    assert cmp(a, c) <= 0;
    if cmp(a, c) == 0 {
      assert cmp(c, a) <= 0;
      assert cmp(c, b) <= 0;
    }
  }

  lemma {:induction false} PlaceInOrder(s: seq<nat>, x: nat, cmp: Compare)
    requires IsOrder(cmp, x + 1) && InOrder(s, cmp) && forall i :: i in s ==> i < x
    ensures InOrder(Place(s, x, cmp), cmp)
    ensures forall i :: i in Place(s, x, cmp) <==> i == x || i in s
  {
    if s == [] {
    } else if cmp(s[|s| - 1], x) <= 0 {
      forall p | 0 <= p < |s|
        ensures Before(cmp, s[p], x)
      {
        assert s[p] in s && s[|s| - 1] in s;
        if p < |s| - 1 {
          BeforeTransitive(cmp, x + 1, s[p], s[|s| - 1], x);
        }
      }
    } else {
      var n := |s| - 1;
      assert s == s[..n] + [s[n]];
      assert forall i :: i in s[..n] ==> i in s;
      PlaceInOrder(s[..n], x, cmp);
      var r := Place(s[..n], x, cmp);
      forall p | 0 <= p < |r|
        ensures Before(cmp, r[p], s[n])
      {
        assert r[p] in r;
        if r[p] != x {
          var k :| 0 <= k < n && s[k] == r[p];
          assert Before(cmp, s[k], s[n]);
        } else {
          assert s[n] in s;
          assert cmp(x, s[n]) < 0;
        }
      }
    }
  }

  ghost predicate SortsBelow(s: seq<nat>, n: nat, cmp: Compare) {
    InOrder(s, cmp) && forall i: nat :: i in s <==> i < n
  }

  lemma SortOneMore(s: seq<nat>, n: nat, cmp: Compare)
    requires IsOrder(cmp, n + 1) && SortsBelow(s, n, cmp)
    ensures SortsBelow(Place(s, n, cmp), n + 1, cmp)
  {
    PlaceInOrder(s, n, cmp);
  }

  /** The result is the stable order: exactly the positions, each before the next. */
  lemma {:induction false} StableOrderSorts(n: nat, m: nat, cmp: Compare)
    requires m <= n && IsOrder(cmp, n)
    ensures SortsBelow(StableOrder(m, cmp), m, cmp)
    decreases m
  {
    if m > 0 {
      StableOrderSorts(n, m - 1, cmp);
      SortOneMore(StableOrder(m - 1, cmp), m - 1, cmp);
    }
  }

  /** order lists the positions of a sequence of length n, each once. */
  predicate Permutes(order: seq<nat>, n: nat) {
    && |order| == n
    && (forall p :: 0 <= p < n ==> order[p] < n)
    && (forall p, q :: 0 <= p < q < n ==> order[p] != order[q])
    && (forall i :: 0 <= i < n ==> i in order)
  }

  function Arrange<T>(s: seq<T>, order: seq<nat>): (r: seq<T>)
    requires forall p :: 0 <= p < |order| ==> order[p] < |s|
    ensures |r| == |order|
  {
    seq(|order|, p requires 0 <= p < |order| => s[order[p]])
  }

  lemma StableOrderPermutes(n: nat, cmp: Compare)
    requires IsOrder(cmp, n)
    ensures Permutes(StableOrder(n, cmp), n)
  {
    StableOrderSorts(n, n, cmp);
    var s := StableOrder(n, cmp);
    forall p | 0 <= p < n
      ensures s[p] < n
    {
      assert s[p] in s;
    }
  }

  /** Arranging by a permutation keeps every element as often as it occurs. */
  lemma {:induction false} ArrangeKeeps<T>(s: seq<T>, order: seq<nat>)
    requires Permutes(order, |s|)
    ensures multiset(Arrange(s, order)) == multiset(s)
  {
    if s == [] {
      assert Arrange(s, order) == s;
    } else {
      var n := |s| - 1;
      assert n in order;
      var k :| 0 <= k <= n && order[k] == n;
      var rest := order[..k] + order[k + 1..];
      RemoveLast(order, n, k);
      ArrangeKeeps(s[..n], rest);
      ArrangeRest(s, order, k);
      TakeOut(Arrange(s, order), k);
      TakeOut(s, n);
    }
  }

  lemma TakeOut<T>(r: seq<T>, k: nat)
    requires k < |r|
    ensures multiset(r) == multiset(r[..k] + r[k + 1..]) + multiset{r[k]}
    ensures k == |r| - 1 ==> r[..k] + r[k + 1..] == r[..k]
  {
    assert r == r[..k] + [r[k]] + r[k + 1..];
  }

  lemma ArrangeRest<T>(s: seq<T>, order: seq<nat>, k: nat)
    requires s != [] && Permutes(order, |s|) && k < |s| && order[k] == |s| - 1
    ensures var rest := order[..k] + order[k + 1..];
            && (forall p :: 0 <= p < |rest| ==> rest[p] < |s| - 1)
            && Arrange(s[..|s| - 1], rest) == Arrange(s, order)[..k] + Arrange(s, order)[k + 1..]
  {
    RemoveLast(order, |s| - 1, k);
  }

  lemma RemoveLast(order: seq<nat>, n: nat, k: nat)
    requires Permutes(order, n + 1) && k <= n && order[k] == n
    ensures Permutes(order[..k] + order[k + 1..], n)
  {
    var rest := order[..k] + order[k + 1..];
    forall i | 0 <= i < n
      ensures i in rest
    {
      assert i in order;
      var p :| 0 <= p <= n && order[p] == i;
      assert rest[if p < k then p else p - 1] == i;
    }
  }

  /** strings.Compare. */
  function StringsCompare(a: string, b: string): int {
    if a == [] && b == [] then 0
    else if a == [] then -1
    else if b == [] then 1
    else if a[0] != b[0] then (if a[0] < b[0] then -1 else 1)
    else StringsCompare(a[1..], b[1..])
  }

  lemma {:induction false} StringsCompareFlips(a: string, b: string)
    ensures StringsCompare(a, b) == -StringsCompare(b, a)
    ensures StringsCompare(a, b) == 0 <==> a == b
  {
    if a != [] && b != [] && a[0] == b[0] {
      StringsCompareFlips(a[1..], b[1..]);
      assert a == [a[0]] + a[1..] && b == [b[0]] + b[1..];
    }
  }

  lemma {:induction false} StringsCompareTransitive(a: string, b: string, c: string)
    requires StringsCompare(a, b) <= 0 && StringsCompare(b, c) <= 0
    ensures StringsCompare(a, c) <= 0
  {
    if a != [] && b != [] && c != [] && a[0] == b[0] && b[0] == c[0] {
      StringsCompareTransitive(a[1..], b[1..], c[1..]);
    }
  }
}
