/** The query of a candidate line (internal/common/candidate/wireguard.go): formatLine writes the
    parameters that have a value, with ",", "/", ":" and "=" unescaped, and parseQuery reads them. */
module CandidateQuery {
  import opened SourceRules
  import opened Percent

  datatype Param = Param(key: Bytes, value: Bytes)

  // ---- writing

  /** The bytes queryEscape turns back into themselves. */
  predicate Kept(b: Byte) {
    b == COMMA || b == SLASH || b == COLON || b == EQUALS
  }

  /** The byte an escape "%XY" stands for, if queryEscape replaces it. */
  function Undone(x: Byte, y: Byte): Option<Byte> {
    if x == 50 && y == 67 then Some(COMMA)        // %2C
    else if x == 50 && y == 70 then Some(SLASH)   // %2F
    else if x == 51 && y == 65 then Some(COLON)   // %3A
    else if x == 51 && y == 68 then Some(EQUALS)  // %3D
    else None
  }

  function Replaced(s: Bytes): Option<Byte> {
    if |s| >= 3 && s[0] == PERCENT then Undone(s[1], s[2]) else None
  }

  /** queryEscape.Replace. */
  function Replace(s: Bytes): Bytes {
    if s == [] then []
    else if Replaced(s).Some? then [Replaced(s).value] + Replace(s[3..])
    else [s[0]] + Replace(s[1..])
  }

  function WriteValue(v: Bytes): Bytes {
    Replace(Escape(v))
  }

  /** How one byte of a value is written. */
  function WrittenByte(b: Byte): Bytes {
    if Kept(b) then [b] else EscapeByte(b)
  }

  /** Exactly the escapes of the kept bytes are undone. */
  lemma KeptDigits(b: Byte)
    ensures Undone(HexDigit(b / 16), HexDigit(b % 16)) == if Kept(b) then Some(b) else None
  {
    assert b == 16 * (b / 16) + b % 16;
  }

  lemma ReplacePlain(b: Byte, rest: Bytes)
    requires b != PERCENT
    ensures Replace([b] + rest) == [b] + Replace(rest)
  {
    assert ([b] + rest)[1..] == rest;
  }

  lemma ReplaceEscape(b: Byte, rest: Bytes)
    requires !Unreserved(b) && b != SPACE
    ensures Replace(EscapeByte(b) + rest) == WrittenByte(b) + Replace(rest)
  {
    var s, x, y := EscapeByte(b) + rest, HexDigit(b / 16), HexDigit(b % 16);
    KeptDigits(b);
    assert Replaced(s) == Undone(x, y);
    if Kept(b) {
      assert s[3..] == rest;
    } else {
      assert s[1..] == [x] + ([y] + rest);
      ReplacePlain(x, [y] + rest);
      ReplacePlain(y, rest);
    }
  }

  lemma ReplaceUnit(b: Byte, rest: Bytes)
    ensures Replace(EscapeByte(b) + rest) == WrittenByte(b) + Replace(rest)
  {
    if Unreserved(b) || b == SPACE {
      ReplacePlain(EscapeByte(b)[0], rest);
      assert EscapeByte(b) == [EscapeByte(b)[0]];
    } else {
      ReplaceEscape(b, rest);
    }
  }

  /** Although some escapes are undone, a value is read back, and has no "&". */
  lemma {:induction false} ValueIsReadBack(v: Bytes)
    ensures Unescape(WriteValue(v)) == Some(v)
    ensures AMPERSAND !in WriteValue(v)
    ensures v != [] ==> WriteValue(v) != []
  {
    if v != [] {
      ValueIsReadBack(v[1..]);
      ReplaceUnit(v[0], Escape(v[1..]));
      UnescapeByte(v[0], WrittenByte(v[0]), WriteValue(v[1..]));
      assert [v[0]] + v[1..] == v;
    }
  }

  function WriteParam(p: Param): Bytes {
    p.key + [EQUALS] + WriteValue(p.value)
  }

  /** The parameters with a value, in order. */
  function WithValue(ps: seq<Param>): seq<Param> {
    if ps == [] then []
    else
      var n := |ps| - 1;
      WithValue(ps[..n]) + if ps[n].value == [] then [] else [ps[n]]
  }

  function Segments(ps: seq<Param>): (r: seq<Bytes>)
    ensures |r| == |ps| && forall i :: 0 <= i < |ps| ==> r[i] == WriteParam(ps[i])
  {
    seq(|ps|, i requires 0 <= i < |ps| => WriteParam(ps[i]))
  }

  /** The query of formatLine: "?" first and "&" between, "" without parameters. */
  method FormatQuery(ps: seq<Param>) returns (q: Bytes, empty: bool)
    ensures q == Join(Segments(WithValue(ps)), AMPERSAND)
    ensures empty <==> WithValue(ps) == []
  {
    q, empty := [], true;
    for i := 0 to |ps|
      invariant q == Join(Segments(WithValue(ps[..i])), AMPERSAND)
      invariant empty <==> WithValue(ps[..i]) == []
    {
      FormatMore(ps, i);
      if ps[i].value != [] {
        q := (if empty then [] else q + [AMPERSAND]) + WriteParam(ps[i]);
        empty := false;
      }
    }
    assert ps[..|ps|] == ps;
  }

  lemma FormatMore(ps: seq<Param>, i: nat)
    requires i < |ps|
    ensures WithValue(ps[..i + 1]) == WithValue(ps[..i]) + if ps[i].value == [] then [] else [ps[i]]
    ensures ps[i].value == [] ==> WithValue(ps[..i + 1]) == WithValue(ps[..i])
    ensures ps[i].value != [] ==>
              Join(Segments(WithValue(ps[..i + 1])), AMPERSAND) ==
              (if WithValue(ps[..i]) == [] then [] else Join(Segments(WithValue(ps[..i])), AMPERSAND) + [AMPERSAND]) + WriteParam(ps[i])
  {
    assert ps[..i + 1][..i] == ps[..i];
    if ps[i].value != [] {
      SegmentsMore(WithValue(ps[..i]), ps[i]);
    }
  }

  lemma SegmentsMore(before: seq<Param>, p: Param)
    ensures Join(Segments(before + [p]), AMPERSAND) ==
            (if before == [] then [] else Join(Segments(before), AMPERSAND) + [AMPERSAND]) + WriteParam(p)
  {
    assert Segments(before + [p]) == Segments(before) + [WriteParam(p)];
    JoinMore(Segments(before), WriteParam(p), AMPERSAND);
  }

  // ---- reading

  datatype Read = Params(q: map<Bytes, Bytes>) | BadEscape | UnknownKey | Repeated(key: Bytes) | EmptyValue(key: Bytes)

  /** One segment of a query. */
  function ReadSegment(q: map<Bytes, Bytes>, seg: Bytes, known: seq<Bytes>): Read {
    var (k, v) := Cut(seg, EQUALS);
    var key, value := Unescape(k), Unescape(v);
    if key.None? || value.None? then BadEscape
    else if key.value !in known then UnknownKey
    else if key.value in q && q[key.value] != [] then Repeated(key.value)
    else if value.value == [] then EmptyValue(key.value)
    else Params(q[key.value := value.value])
  }

  /** The first n segments. */
  function ReadSegments(segs: seq<Bytes>, n: nat, known: seq<Bytes>): Read
    requires n <= |segs|
  {
    if n == 0 then Params(map[])
    else
      var before := ReadSegments(segs, n - 1, known);
      if before.Params? then ReadSegment(before.q, segs[n - 1], known) else before
  }

  /** parseQuery: the first error ends it; a raw query of "" has no parameters. */
  method ParseQuery(raw: Bytes, known: seq<Bytes>) returns (r: Read)
    ensures raw == [] ==> r == Params(map[])
    ensures raw != [] ==> r == ReadSegments(Split(raw, AMPERSAND), |Split(raw, AMPERSAND)|, known)
    ensures r.Params? ==> forall k :: k in r.q ==> k in known && r.q[k] != []
  {
    r := Params(map[]);
    if raw == [] {
      return;
    }
    var segs := Split(raw, AMPERSAND);
    var i := 0;
    while i < |segs| && r.Params?
      invariant i <= |segs|
      invariant r == ReadSegments(segs, i, known)
      invariant r.Params? ==> forall k :: k in r.q ==> k in known && r.q[k] != []
    {
      r := ReadSegment(r.q, segs[i], known);
      i := i + 1;
    }
    if !r.Params? {
      ErrorStays(segs, i, |segs|, known);
    }
  }

  lemma {:induction false} ErrorStays(segs: seq<Bytes>, i: nat, n: nat, known: seq<Bytes>)
    requires i <= n <= |segs| && !ReadSegments(segs, i, known).Params?
    ensures ReadSegments(segs, n, known) == ReadSegments(segs, i, known)
  {
    if i < n {
      ErrorStays(segs, i, n - 1, known);
    }
  }

  // ---- round trip

  /** Keys are written as they are: lower-case letters. */
  predicate PlainKey(k: Bytes) {
    k != [] && forall i :: 0 <= i < |k| ==> 97 <= k[i] <= 122
  }

  lemma {:induction false} PlainKeyIsRead(k: Bytes)
    requires forall i :: 0 <= i < |k| ==> 97 <= k[i] <= 122
    ensures Unescape(k) == Some(k) && EQUALS !in k && AMPERSAND !in k
  {
    if k != [] {
      PlainKeyIsRead(k[1..]);
      assert [k[0]] + k[1..] == k;
    }
  }

  predicate DistinctKeys(ps: seq<Param>) {
    forall i, j :: 0 <= i < j < |ps| ==> ps[i].key != ps[j].key
  }

  function ParamMap(ps: seq<Param>): (m: map<Bytes, Bytes>)
    ensures forall k :: k in m ==> exists i :: 0 <= i < |ps| && ps[i].key == k && ps[i].value == m[k]
  {
    if ps == [] then map[]
    else
      var n := |ps| - 1;
      assert forall i :: 0 <= i < n ==> ps[..n][i] == ps[i];
      ParamMap(ps[..n])[ps[n].key := ps[n].value]
  }

  lemma {:induction false} SegmentsAreRead(ps: seq<Param>, n: nat, known: seq<Bytes>)
    requires n <= |ps| && DistinctKeys(ps)
    requires forall i :: 0 <= i < |ps| ==> PlainKey(ps[i].key) && ps[i].key in known && ps[i].value != []
    ensures ReadSegments(Segments(ps), n, known) == Params(ParamMap(ps[..n]))
  {
    if n > 0 {
      SegmentsAreRead(ps, n - 1, known);
      var p := ps[n - 1];
      PlainKeyIsRead(p.key);
      ValueIsReadBack(p.value);
      CutAt(p.key, WriteValue(p.value), EQUALS);
      assert ps[..n][..n - 1] == ps[..n - 1];
      assert p.key !in ParamMap(ps[..n - 1]);
    }
  }

  lemma {:induction false} WithValueKeeps(ps: seq<Param>)
    ensures forall p :: p in WithValue(ps) <==> p in ps && p.value != []
  {
    if ps != [] {
      var n := |ps| - 1;
      WithValueKeeps(ps[..n]);
      assert ps == ps[..n] + [ps[n]];
    }
  }

  lemma {:induction false} WithValueDistinct(ps: seq<Param>)
    requires DistinctKeys(ps)
    ensures DistinctKeys(WithValue(ps))
  {
    if ps != [] {
      var n := |ps| - 1;
      var before := WithValue(ps[..n]);
      WithValueDistinct(ps[..n]);
      WithValueKeeps(ps[..n]);
      forall i | 0 <= i < |before|
        ensures before[i].key != ps[n].key
      {
        assert before[i] in before;
        var k :| 0 <= k < n && ps[..n][k] == before[i];
      }
    }
  }

  /** What formatLine writes for distinct known parameters, parseQuery reads: exactly those that
      have a value. */
  lemma QueryIsReadBack(ps: seq<Param>, known: seq<Bytes>)
    requires DistinctKeys(ps) && forall p :: p in ps ==> PlainKey(p.key) && p.key in known
    requires WithValue(ps) != []
    ensures var raw := Join(Segments(WithValue(ps)), AMPERSAND);
            && raw != []
            && ReadSegments(Split(raw, AMPERSAND), |Split(raw, AMPERSAND)|, known) == Params(ParamMap(WithValue(ps)))
  {
    WithValueKeeps(ps);
    WithValueDistinct(ps);
    assert forall i :: 0 <= i < |WithValue(ps)| ==> WithValue(ps)[i] in WithValue(ps);
    WrittenIsRead(WithValue(ps), known);
  }

  lemma WrittenIsRead(qs: seq<Param>, known: seq<Bytes>)
    requires qs != [] && DistinctKeys(qs)
    requires forall i :: 0 <= i < |qs| ==> PlainKey(qs[i].key) && qs[i].key in known && qs[i].value != []
    ensures var raw := Join(Segments(qs), AMPERSAND);
            raw != [] && ReadSegments(Split(raw, AMPERSAND), |Split(raw, AMPERSAND)|, known) == Params(ParamMap(qs))
  {
    forall part | part in Segments(qs)
      ensures AMPERSAND !in part
    {
      var i :| 0 <= i < |qs| && Segments(qs)[i] == part;
      PlainKeyIsRead(qs[i].key);
      ValueIsReadBack(qs[i].value);
    }
    JoinIsSplit(Segments(qs), AMPERSAND);
    SegmentsAreRead(qs, |qs|, known);
    assert qs[..|qs|] == qs;
    JoinIsLong(Segments(qs), AMPERSAND);
  }

  lemma JoinIsLong(parts: seq<Bytes>, sep: Byte)
    requires parts != [] && parts[0] != []
    ensures Join(parts, sep) != []
  {
  }

  /** The map of distinct parameters holds each of them, and nothing else. */
  lemma {:induction false} MapHoldsParams(ps: seq<Param>, p: Param)
    requires DistinctKeys(ps) && p in ps
    ensures p.key in ParamMap(ps) && ParamMap(ps)[p.key] == p.value
  {
    var n := |ps| - 1;
    assert ps == ps[..n] + [ps[n]];
    if p != ps[n] {
      var k :| 0 <= k < n && ps[k] == p;
      assert ps[..n][k] == p;
      MapHoldsParams(ps[..n], p);
    }
  }
}
