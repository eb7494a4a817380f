/** Query strings as bytes: percent-encoding (RFC 3986 section 2.1) in the form of
    application/x-www-form-urlencoded, splitting and joining. */
module Percent {
  import opened SourceRules

  type Byte = b: int | 0 <= b < 256
  type Bytes = seq<Byte>

  const SPACE: Byte := 32
  const PERCENT: Byte := 37
  const AMPERSAND: Byte := 38
  const PLUS: Byte := 43
  const COMMA: Byte := 44
  const SLASH: Byte := 47
  const COLON: Byte := 58
  const EQUALS: Byte := 61

  predicate Digit(b: Byte) { 48 <= b <= 57 }

  /** Letters, digits, "-", "_", "." and "~" stand for themselves. */
  predicate Unreserved(b: Byte) {
    Digit(b) || 65 <= b <= 90 || 97 <= b <= 122 || b == 45 || b == 95 || b == 46 || b == 126
  }

  function HexDigit(n: int): Byte
    requires 0 <= n < 16
  {
    if n < 10 then 48 + n else 55 + n
  }

  function HexValue(b: Byte): Option<int> {
    if Digit(b) then Some(b - 48)
    else if 65 <= b <= 70 then Some(b - 55)
    else if 97 <= b <= 102 then Some(b - 87)
    else None
  }

  function EscapeByte(b: Byte): Bytes {
    if Unreserved(b) then [b] else if b == SPACE then [PLUS] else [PERCENT, HexDigit(b / 16), HexDigit(b % 16)]
  }

  /** url.QueryEscape. */
  function Escape(s: Bytes): Bytes {
    if s == [] then [] else EscapeByte(s[0]) + Escape(s[1..])
  }

  /** url.QueryUnescape; None for an invalid escape. */
  function Unescape(s: Bytes): Option<Bytes> {
    if s == [] then Some([])
    else if s[0] == PERCENT then
      if |s| < 3 || HexValue(s[1]).None? || HexValue(s[2]).None? then None
      else Prepend(HexValue(s[1]).value * 16 + HexValue(s[2]).value, Unescape(s[3..]))
    else Prepend(if s[0] == PLUS then SPACE else s[0], Unescape(s[1..]))
  }

  function Prepend(b: int, rest: Option<Bytes>): Option<Bytes> {
    if rest.Some? && 0 <= b < 256 then Some([b as Byte] + rest.value) else None
  }

  /** One escaped byte is read back. */
  lemma UnescapeByte(b: Byte, unit: Bytes, rest: Bytes)
    requires unit == EscapeByte(b) || (unit == [b] && b != PERCENT && b != PLUS)
    ensures Unescape(unit + rest) == Prepend(b, Unescape(rest))
  {
    var s := unit + rest;
    if |unit| == 3 {
      assert s[3..] == rest;
      assert HexValue(s[1]) == Some(b / 16) && HexValue(s[2]) == Some(b % 16);
    } else {
      assert s[1..] == rest;
    }
  }

  lemma {:induction false} EscapeIsReadBack(s: Bytes)
    ensures Unescape(Escape(s)) == Some(s)
  {
    if s != [] {
      EscapeIsReadBack(s[1..]);
      UnescapeByte(s[0], EscapeByte(s[0]), Escape(s[1..]));
      assert [s[0]] + s[1..] == s;
    }
  }

  /** An escaped string has no separators. */
  lemma {:induction false} EscapeHasNoSeparators(s: Bytes)
    ensures AMPERSAND !in Escape(s) && EQUALS !in Escape(s)
  {
    if s != [] {
      EscapeHasNoSeparators(s[1..]);
    }
  }

  // ---- splitting and joining

  /** strings.SplitSeq on one byte. */
  function Split(s: Bytes, sep: Byte): (r: seq<Bytes>)
    ensures |r| >= 1
  {
    if s == [] then [[]]
    else
      var rest := Split(s[1..], sep);
      if s[0] == sep then [[]] + rest else [[s[0]] + rest[0]] + rest[1..]
  }

  function Join(parts: seq<Bytes>, sep: Byte): Bytes {
    if parts == [] then []
    else if |parts| == 1 then parts[0]
    else parts[0] + [sep] + Join(parts[1..], sep)
  }

  lemma {:induction false} SplitPart(part: Bytes, rest: Bytes, sep: Byte)
    requires sep !in part
    ensures Split(part, sep) == [part]
    ensures Split(part + [sep] + rest, sep) == [part] + Split(rest, sep)
  {
    var s := part + [sep] + rest;
    if part == [] {
      assert s[1..] == rest;
    } else {
      assert s[1..] == part[1..] + [sep] + rest;
      SplitPart(part[1..], rest, sep);
      assert [part[0]] + part[1..] == part;
      assert ([part[1..]] + Split(rest, sep))[1..] == Split(rest, sep);
    }
  }

  lemma {:induction false} JoinIsSplit(parts: seq<Bytes>, sep: Byte)
    requires parts != [] && forall p :: p in parts ==> sep !in p
    ensures Split(Join(parts, sep), sep) == parts
  {
    if |parts| == 1 {
      SplitPart(parts[0], [], sep);
    } else {
      var rest := parts[1..];
      assert parts == [parts[0]] + rest && parts[0] in parts;
      JoinIsSplit(rest, sep);
      SplitPart(parts[0], Join(rest, sep), sep);
    }
  }

  lemma {:induction false} JoinMore(parts: seq<Bytes>, part: Bytes, sep: Byte)
    ensures Join(parts + [part], sep) == if parts == [] then part else Join(parts, sep) + [sep] + part
  {
    if |parts| > 1 {
      JoinMore(parts[1..], part, sep);
      assert (parts + [part])[1..] == parts[1..] + [part];
    }
  }

  /** strings.Cut on one byte: before and after its first occurrence. */
  function Cut(s: Bytes, sep: Byte): (Bytes, Bytes) {
    if s == [] then ([], [])
    else if s[0] == sep then ([], s[1..])
    else
      var r := Cut(s[1..], sep);
      ([s[0]] + r.0, r.1)
  }

  lemma {:induction false} CutAt(before: Bytes, rest: Bytes, sep: Byte)
    requires sep !in before
    ensures Cut(before + [sep] + rest, sep) == (before, rest)
  {
    var s := before + [sep] + rest;
    if before == [] {
      assert s[1..] == rest;
    } else {
      assert s[1..] == before[1..] + [sep] + rest;
      CutAt(before[1..], rest, sep);
      assert [before[0]] + before[1..] == before;
    }
  }
}
