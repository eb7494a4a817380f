/** The query of the push URL (internal/scd/monitor/pingurl.go): an ordered list of pairs that is
    read, changed in place and written back. */
module PingUrl {
  import opened SourceRules
  import opened Percent

  datatype Pair = Pair(key: Bytes, value: Bytes)

  function PlusAsSpace(s: Bytes): Bytes {
    if s == [] then [] else [if s[0] == PLUS then SPACE else s[0]] + PlusAsSpace(s[1..])
  }

  /** unescapeLenient: an invalid escape is kept literally. */
  function UnescapeLenient(s: Bytes): Bytes {
    if Unescape(s).Some? then Unescape(s).value else PlusAsSpace(s)
  }

  function ParsePair(part: Bytes): Pair {
    var (k, v) := Cut(part, EQUALS);
    Pair(UnescapeLenient(k), UnescapeLenient(v))
  }

  /** What parseQuery reads from the parts: empty ones are skipped. */
  function ParseParts(parts: seq<Bytes>): seq<Pair> {
    if parts == [] then []
    else
      var n := |parts| - 1;
      ParseParts(parts[..n]) + if parts[n] == [] then [] else [ParsePair(parts[n])]
  }

  method ParseQuery(raw: Bytes) returns (q: seq<Pair>)
    ensures q == ParseParts(Split(raw, AMPERSAND))
  {
    q := [];
    var parts := Split(raw, AMPERSAND);
    for i := 0 to |parts|
      invariant q == ParseParts(parts[..i])
    {
      assert parts[..i + 1][..i] == parts[..i];
      if parts[i] != [] {
        q := q + [ParsePair(parts[i])];
      }
    }
    assert parts[..|parts|] == parts;
  }

  function EncodePair(p: Pair): Bytes {
    Escape(p.key) + [EQUALS] + Escape(p.value)
  }

  function EncodePairs(q: seq<Pair>): (r: seq<Bytes>)
    ensures |r| == |q| && forall i :: 0 <= i < |q| ==> r[i] == EncodePair(q[i])
  {
    seq(|q|, i requires 0 <= i < |q| => EncodePair(q[i]))
  }

  /** encode. */
  method Encode(q: seq<Pair>) returns (s: Bytes)
    ensures s == Join(EncodePairs(q), AMPERSAND)
  {
    s := [];
    for i := 0 to |q|
      invariant s == Join(EncodePairs(q[..i]), AMPERSAND)
    {
      EncodeMore(q, i);
      if i > 0 {
        s := s + [AMPERSAND];
      }
      s := s + EncodePair(q[i]);
    }
    assert q[..|q|] == q;
  }

  lemma EncodeMore(q: seq<Pair>, i: nat)
    requires i < |q|
    ensures Join(EncodePairs(q[..i + 1]), AMPERSAND) ==
            (if i == 0 then [] else Join(EncodePairs(q[..i]), AMPERSAND) + [AMPERSAND]) + EncodePair(q[i])
  {
    var parts := EncodePairs(q[..i]);
    JoinMore(parts, EncodePair(q[i]), AMPERSAND);
    assert EncodePairs(q[..i + 1]) == parts + [EncodePair(q[i])];
  }

  /** A written pair is read back. */
  lemma PairIsReadBack(p: Pair)
    ensures ParsePair(EncodePair(p)) == p && EncodePair(p) != [] && AMPERSAND !in EncodePair(p)
  {
    EscapeHasNoSeparators(p.key);
    EscapeHasNoSeparators(p.value);
    CutAt(Escape(p.key), Escape(p.value), EQUALS);
    EscapeIsReadBack(p.key);
    EscapeIsReadBack(p.value);
  }

  lemma {:induction false} PartsAreReadBack(q: seq<Pair>)
    ensures ParseParts(EncodePairs(q)) == q
  {
    if q != [] {
      var n := |q| - 1;
      PartsAreReadBack(q[..n]);
      PairIsReadBack(q[n]);
      assert EncodePairs(q)[..n] == EncodePairs(q[..n]);
    }
  }

  /** Every query is read back as it was written. */
  lemma QueryIsReadBack(q: seq<Pair>)
    ensures ParseParts(Split(Join(EncodePairs(q), AMPERSAND), AMPERSAND)) == q
  {
    if q == [] {
      assert Split([], AMPERSAND) == [[]];
      assert ParseParts([[]]) == [];
    } else {
      forall part | part in EncodePairs(q)
        ensures AMPERSAND !in part
      {
        var i :| 0 <= i < |q| && EncodePairs(q)[i] == part;
        PairIsReadBack(q[i]);
      }
      JoinIsSplit(EncodePairs(q), AMPERSAND);
      PartsAreReadBack(q);
    }
  }

  // ---- set

  /** The pairs of other keys, in order. */
  function Others(q: seq<Pair>, key: Bytes): seq<Pair> {
    if q == [] then []
    else
      var n := |q| - 1;
      Others(q[..n], key) + if q[n].key == key then [] else [q[n]]
  }

  /** The position of the first pair of the key, |q| without one. */
  function FirstOf(q: seq<Pair>, key: Bytes): (i: nat)
    ensures i <= |q| && (i < |q| ==> q[i].key == key) && forall j :: 0 <= j < i ==> q[j].key != key
  {
    if q == [] || q[0].key == key then 0
    else
      var i := FirstOf(q[1..], key);
      assert forall j :: 0 < j < |q| ==> q[j] == q[1..][j - 1];
      i + 1
  }

  /** URLSearchParams.set (URL Standard section 6.2): the first pair of the key takes the value, the
      later ones go; without one the pair is appended. */
  function SetOf(q: seq<Pair>, key: Bytes, value: Bytes): seq<Pair> {
    var i := FirstOf(q, key);
    q[..i] + [Pair(key, value)] + if i < |q| then Others(q[i + 1..], key) else []
  }

  lemma {:induction false} OthersOfConcat(a: seq<Pair>, b: seq<Pair>, key: Bytes)
    ensures Others(a + b, key) == Others(a, key) + Others(b, key)
  {
    if b == [] {
      assert a + b == a;
    } else {
      var n := |b| - 1;
      assert (a + b)[..|a| + n] == a + b[..n];
      OthersOfConcat(a, b[..n], key);
    }
  }

  lemma {:induction false} OthersHaveOtherKeys(q: seq<Pair>, key: Bytes)
    ensures forall p :: p in Others(q, key) ==> p.key != key
  {
    if q != [] {
      OthersHaveOtherKeys(q[..|q| - 1], key);
    }
  }

  lemma {:induction false} AllOthers(q: seq<Pair>, key: Bytes)
    requires forall j :: 0 <= j < |q| ==> q[j].key != key
    ensures Others(q, key) == q
  {
    if q != [] {
      var n := |q| - 1;
      AllOthers(q[..n], key);
      assert q == q[..n] + [q[n]];
    }
  }

  /** After set the key occurs exactly once, where it first was or else last, with the value. */
  lemma SetLeavesOne(q: seq<Pair>, key: Bytes, value: Bytes)
    ensures var r := SetOf(q, key, value);
            var i := FirstOf(q, key);
            i < |r| && r[i] == Pair(key, value) && forall j :: 0 <= j < |r| && j != i ==> r[j].key != key
  {
    var i := FirstOf(q, key);
    var rest := if i < |q| then Others(q[i + 1..], key) else [];
    var r := SetOf(q, key, value);
    assert r == q[..i] + [Pair(key, value)] + rest;
    if i < |q| {
      OthersHaveOtherKeys(q[i + 1..], key);
    }
    forall j | 0 <= j < |r| && j != i
      ensures r[j].key != key
    {
      assert j > i ==> r[j] == rest[j - i - 1] && r[j] in rest;
    }
  }

  /** All other pairs are there after set, in order. */
  lemma SetKeepsOthers(q: seq<Pair>, key: Bytes, value: Bytes)
    ensures Others(SetOf(q, key, value), key) == Others(q, key)
  {
    var i := FirstOf(q, key);
    if i < |q| {
      SetKeepsThose(q[..i], q[i], q[i + 1..], key, value);
      assert q == q[..i] + [q[i]] + q[i + 1..];
    } else {
      assert q[..i] == q;
      OthersAround(q, Pair(key, value), [], key);
    }
  }

  lemma SetKeepsThose(head: seq<Pair>, p: Pair, tail: seq<Pair>, key: Bytes, value: Bytes)
    requires p.key == key
    ensures Others(head + [Pair(key, value)] + Others(tail, key), key) == Others(head + [p] + tail, key)
  {
    var rest := Others(tail, key);
    OthersHaveOtherKeys(tail, key);
    assert forall j :: 0 <= j < |rest| ==> rest[j] in rest;
    AllOthers(rest, key);
    OthersAround(head, Pair(key, value), rest, key);
    OthersAround(head, p, tail, key);
  }

  lemma OthersAround(a: seq<Pair>, p: Pair, b: seq<Pair>, key: Bytes)
    ensures Others(a + [p] + b, key) == Others(a, key) + (if p.key == key then [] else [p]) + Others(b, key)
  {
    OthersOfConcat(a + [p], b, key);
    OthersOfConcat(a, [p], key);
    assert [p][..0] == [];
  }

  /** set on the slice a[..n]: the value is written in place and the later pairs of the key are
      compacted away while the same array is read. Without the key the pair is appended, in a new
      array when there is no room. */
  method Set(a: array<Pair>, n: nat, key: Bytes, value: Bytes) returns (b: array<Pair>, m: nat)
    requires n <= a.Length
    modifies a
    ensures m <= b.Length && b[..m] == SetOf(old(a[..n]), key, value)
    ensures b == a || fresh(b)
    ensures FirstOf(old(a[..n]), key) < n ==> b == a && forall k :: m <= k < a.Length && k >= n ==> a[k] == old(a[k])
  {
    var i := Find(a, n, key);
    if i == n {
      b, m := Append(a, n, Pair(key, value));
    } else {
      m := SetAt(a, n, i, key, value);
      b := a;
    }
  }

  /** slices.IndexFunc; n without one. */
  method Find(a: array<Pair>, n: nat, key: Bytes) returns (i: nat)
    requires n <= a.Length
    ensures i == FirstOf(a[..n], key)
  {
    i := 0;
    while i < n && a[i].key != key
      invariant i <= n
      invariant forall j :: 0 <= j < i ==> a[j].key != key
    {
      i := i + 1;
    }
    FirstIs(a[..n], key, i);
  }

  method SetAt(a: array<Pair>, n: nat, i: nat, key: Bytes, value: Bytes) returns (m: nat)
    requires i < n <= a.Length && i == FirstOf(a[..n], key)
    modifies a
    ensures i < m <= n && a[..m] == SetOf(old(a[..n]), key, value)
    ensures forall k :: n <= k < a.Length ==> a[k] == old(a[k])
  {
    ghost var was := a[..n];
    a[i] := a[i].(value := value);
    assert a[..i + 1] == was[..i] + [Pair(key, value)];
    assert a[i + 1..n] == was[i + 1..];
    m := Compact(a, i + 1, n, key);
    assert a[..m] == a[..i + 1] + a[i + 1..m];
  }

  /** The pairs of a[from..n] that have another key move down, read and written in one pass. */
  method Compact(a: array<Pair>, from: nat, n: nat, key: Bytes) returns (m: nat)
    requires from <= n <= a.Length
    modifies a
    ensures from <= m <= n && a[..from] == old(a[..from]) && a[from..m] == Others(old(a[from..n]), key)
    ensures forall k :: n <= k < a.Length ==> a[k] == old(a[k])
  {
    ghost var was := a[from..n];
    m := from;
    for j := from to n
      invariant from <= m <= j && a[..from] == old(a[..from])
      invariant a[from..m] == Others(was[..j - from], key)
      invariant forall k :: j <= k < n ==> a[k] == was[k - from]
      invariant forall k :: n <= k < a.Length ==> a[k] == old(a[k])
    {
      var p := a[j];
      OthersMore(was, j - from, key);
      if p.key != key {
        a[m] := p;
        m := m + 1;
      }
    }
    assert was[..n - from] == was;
  }

  lemma OthersMore(q: seq<Pair>, i: nat, key: Bytes)
    requires i < |q|
    ensures Others(q[..i + 1], key) == Others(q[..i], key) + if q[i].key == key then [] else [q[i]]
  {
    assert q[..i + 1][..i] == q[..i];
  }

  lemma FirstIs(q: seq<Pair>, key: Bytes, i: nat)
    requires i <= |q| && (forall j :: 0 <= j < i ==> q[j].key != key) && (i < |q| ==> q[i].key == key)
    ensures FirstOf(q, key) == i
  {
  }

  method Append(a: array<Pair>, n: nat, p: Pair) returns (b: array<Pair>, m: nat)
    requires n <= a.Length
    modifies a
    ensures m == n + 1 <= b.Length && b[..m] == old(a[..n]) + [p] && (b == a || fresh(b))
  {
    b := a;
    if n == a.Length {
      b := new Pair[2 * n + 1](_ => p);
      for k := 0 to n
        invariant b.Length == 2 * n + 1 && fresh(b) && a[..n] == old(a[..n])
        invariant forall j :: 0 <= j < k ==> b[j] == a[j]
      {
        b[k] := a[k];
      }
    }
    b[n] := p;
    m := n + 1;
  }
}
