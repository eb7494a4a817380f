/** Tag namespaces of the sources of one target (internal/scd/apply/namespace.go): which
    resources of Xray belong to which source, and the prefix facts everything else rests on. */
module Namespaces {

  type Tag = string

  datatype Kind = KindOutbound | KindInbound | KindRouting

  /** strings.HasPrefix: p is a prefix of s. */
  predicate HasPrefix(s: string, p: string) {
    p <= s
  }

  /** The namespace of one source: outbounds "<obsPrefix><id>-" and "<id>-", inbounds
      "in-<id>-", routing rules "route-<id>-". */
  datatype Namespace = Namespace(obsPrefix: string, sourceId: string) {

    function Stem(): string {
      sourceId + "-"
    }

    predicate Owns(kind: Kind, tag: Tag) {
      match kind
      case KindOutbound => HasPrefix(tag, obsPrefix + Stem()) || HasPrefix(tag, Stem())
      case KindInbound => HasPrefix(tag, "in-" + Stem())
      case KindRouting => HasPrefix(tag, "route-" + Stem())
    }
  }

  /** One of two strings is a prefix of the other. */
  predicate Comparable(a: string, b: string) {
    HasPrefix(a, b) || HasPrefix(b, a)
  }

  lemma PrefixesOfOneStringCompare(a: string, b: string, s: string)
    requires HasPrefix(s, a) && HasPrefix(s, b)
    ensures Comparable(a, b)
  {
    if |a| <= |b| {
      assert a == s[..|a|] == b[..|a|];
    } else {
      assert b == s[..|b|] == a[..|b|];
    }
  }

  lemma PrefixTransitive(a: string, b: string, c: string)
    requires HasPrefix(b, a) && HasPrefix(c, b)
    ensures HasPrefix(c, a)
  {
    assert a == b[..|a|] == c[..|a|];
  }

  lemma PrefixOfConcat(p: string, a: string, b: string)
    ensures HasPrefix(p + b, p + a) <==> HasPrefix(b, a)
  {
    if HasPrefix(b, a) {
      assert p + b == (p + a) + b[|a|..];
    }
    if HasPrefix(p + b, p + a) {
      assert forall i :: 0 <= i < |a| ==> a[i] == (p + a)[|p| + i] == (p + b)[|p| + i] == b[i];
    }
  }
}
