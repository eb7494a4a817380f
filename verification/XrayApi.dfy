/** The Xray API as scd sees it (internal/scd/xrayapi/client.go): a remote server whose calls
    may fail, whose answers may be lost, and which may restart between any two calls; and the
    client wrapper that caps the outbounds of a source (internal/scd/apply/cap.go). */
module XrayApi {
  import opened Namespaces
  import opened Sets
  import opened SourceRules

  datatype Outbound = Outbound(tag: Tag, json: string)
  datatype Inbound = Inbound(tag: Tag, listen: string, port: int)
  datatype Rule = Rule(ruleTag: Tag, inboundTag: Tag, outboundTag: Tag)

  datatype Listener = Listener(listen: string, port: int)

  /** What Xray holds; restarts counts how often it lost everything added over the API. */
  datatype Server = Server(
    outbounds: map<Tag, string>,
    inbounds: map<Tag, Listener>,
    rules: seq<Rule>,
    restarts: nat)
  {
    function WithOutbound(h: Outbound): Server { this.(outbounds := outbounds[h.tag := h.json]) }
    function WithoutOutbound(tag: Tag): Server { this.(outbounds := outbounds - {tag}) }
    function WithInbound(h: Inbound): Server { this.(inbounds := inbounds[h.tag := Listener(h.listen, h.port)]) }
    function WithoutInbound(tag: Tag): Server { this.(inbounds := inbounds - {tag}) }
    function WithRule(r: Rule): Server { this.(rules := rules + [r]) }
    function WithoutRule(tag: Tag): Server { this.(rules := Without(rules, tag)) }
  }

  /** The tags of one kind in s. */
  function TagsOf(s: Server, kind: Kind): set<Tag> {
    match kind
    case KindOutbound => s.outbounds.Keys
    case KindInbound => s.inbounds.Keys
    case KindRouting => set r | r in s.rules :: r.ruleTag
  }

  /** The rules whose tag is not the given one, in order. */
  function Without(rules: seq<Rule>, tag: Tag): seq<Rule> {
    if rules == [] then []
    else (if rules[0].ruleTag == tag then [] else [rules[0]]) + Without(rules[1..], tag)
  }

  /** Nil is no error. */
  datatype Error = Nil | RpcError | CapReached | BuildError

  /** What an operation under the target lock may touch: the resources of one source, or the
      orphans of all sources. Fixed resources are never touched. */
  datatype Scope =
    | SourceScope(t: Target, ns: Namespace)
    | OrphanScope(t: Target, namespaces: seq<Namespace>)
  {
    predicate Covers(kind: Kind, tag: Tag) {
      && tag !in t.Fixed(kind)
      && match this
         case SourceScope(_, ns) => ns.Owns(kind, tag)
         case OrphanScope(_, namespaces) => tag != "" && forall ns :: ns in namespaces ==> !ns.Owns(kind, tag)
    }
  }

  function Outside(rules: seq<Rule>, scope: Scope): seq<Rule> {
    if rules == [] then []
    else (if scope.Covers(KindRouting, rules[0].ruleTag) then [] else [rules[0]]) + Outside(rules[1..], scope)
  }

  /** What of s lies outside a scope. */
  function Rest(scope: Scope, s: Server): Server {
    Server(
      map tag | tag in s.outbounds && !scope.Covers(KindOutbound, tag) :: s.outbounds[tag],
      map tag | tag in s.inbounds && !scope.Covers(KindInbound, tag) :: s.inbounds[tag],
      Outside(s.rules, scope),
      0)
  }

  lemma RestOfOutbounds(scope: Scope, s: Server, h: Outbound)
    requires scope.Covers(KindOutbound, h.tag)
    ensures Rest(scope, s.WithOutbound(h)) == Rest(scope, s) == Rest(scope, s.WithoutOutbound(h.tag))
  {
    assert Rest(scope, s.WithOutbound(h)).outbounds == Rest(scope, s).outbounds;
    assert Rest(scope, s.WithoutOutbound(h.tag)).outbounds == Rest(scope, s).outbounds;
  }

  lemma RestOfInbounds(scope: Scope, s: Server, h: Inbound)
    requires scope.Covers(KindInbound, h.tag)
    ensures Rest(scope, s.WithInbound(h)) == Rest(scope, s) == Rest(scope, s.WithoutInbound(h.tag))
  {
    assert Rest(scope, s.WithInbound(h)).inbounds == Rest(scope, s).inbounds;
    assert Rest(scope, s.WithoutInbound(h.tag)).inbounds == Rest(scope, s).inbounds;
  }

  lemma RestOfRules(scope: Scope, s: Server, r: Rule)
    requires scope.Covers(KindRouting, r.ruleTag)
    ensures Rest(scope, s.WithRule(r)) == Rest(scope, s) == Rest(scope, s.WithoutRule(r.ruleTag))
  {
    OutsideAppend(s.rules, r, scope);
    OutsideWithout(s.rules, r.ruleTag, scope);
  }

  lemma OutsideAppend(rules: seq<Rule>, r: Rule, scope: Scope)
    ensures Outside(rules + [r], scope) ==
            Outside(rules, scope) + if scope.Covers(KindRouting, r.ruleTag) then [] else [r]
  {
    if rules == [] {
    } else {
      assert (rules + [r])[1..] == rules[1..] + [r];
    }
  }

  lemma OutsideWithout(rules: seq<Rule>, tag: Tag, scope: Scope)
    requires scope.Covers(KindRouting, tag)
    ensures Outside(Without(rules, tag), scope) == Outside(rules, scope)
  {
    if rules != [] {
      OutsideWithout(rules[1..], tag, scope);
      var rest := Without(rules[1..], tag);
      if rules[0].ruleTag != tag {
        assert ([rules[0]] + rest)[1..] == rest;
      } else {
        assert [] + rest == rest;
      }
    }
  }

  /** Nothing of s lies in a scope. */
  ghost predicate Clear(scope: Scope, s: Server) {
    && (forall tag :: tag in s.outbounds ==> !scope.Covers(KindOutbound, tag))
    && (forall tag :: tag in s.inbounds ==> !scope.Covers(KindInbound, tag))
    && (forall r :: r in s.rules ==> !scope.Covers(KindRouting, r.ruleTag))
  }

  /** The non-fixed outbounds of s in namespace ns: what maxActive limits. */
  function Owned(t: Target, ns: Namespace, s: Server): set<Tag> {
    set tag | tag in s.outbounds && tag !in t.fixedOutbounds && ns.Owns(KindOutbound, tag)
  }

  datatype Cap = Cap(ns: Namespace, limit: nat)

  function Max(a: nat, b: nat): nat {
    if a < b then b else a
  }

  /** From state a to state s the outbounds of no capped source grew past its cap. */
  ghost predicate WithinCaps(t: Target, caps: seq<Cap>, a: Server, s: Server) {
    forall i :: 0 <= i < |caps| ==>
      |Owned(t, caps[i].ns, s)| <= Max(caps[i].limit, |Owned(t, caps[i].ns, a)|)
  }

  /** Removing outbounds keeps every cap. */
  lemma FewerWithinCaps(t: Target, caps: seq<Cap>, s: Server, s': Server)
    requires s'.outbounds.Keys <= s.outbounds.Keys
    ensures WithinCaps(t, caps, s, s')
  {
    forall i | 0 <= i < |caps|
      ensures |Owned(t, caps[i].ns, s')| <= |Owned(t, caps[i].ns, s)|
    {
      SubsetSize(Owned(t, caps[i].ns, s'), Owned(t, caps[i].ns, s));
    }
  }

  ghost predicate Room(t: Target, cap: Cap, s: Server) {
    |Owned(t, cap.ns, s)| < cap.limit
  }

  /** Xray in state s takes h: its tag is new and every capped source that owns it has room. */
  ghost predicate Takes(t: Target, caps: seq<Cap>, s: Server, h: Outbound) {
    && h.tag !in s.outbounds
    && forall i :: 0 <= i < |caps| && caps[i].ns.Owns(KindOutbound, h.tag) ==> Room(t, caps[i], s)
  }

  /** An outbound added where every source that owns its tag has room keeps every cap. */
  lemma AddWithinCaps(t: Target, caps: seq<Cap>, s: Server, h: Outbound)
    requires forall i :: 0 <= i < |caps| && caps[i].ns.Owns(KindOutbound, h.tag) ==> Room(t, caps[i], s)
    ensures WithinCaps(t, caps, s, s.WithOutbound(h))
  {
    var s' := s.WithOutbound(h);
    forall i | 0 <= i < |caps|
      ensures |Owned(t, caps[i].ns, s')| <= Max(caps[i].limit, |Owned(t, caps[i].ns, s)|)
    {
      var ns := caps[i].ns;
      if ns.Owns(KindOutbound, h.tag) {
        SubsetSize(Owned(t, ns, s'), Owned(t, ns, s) + {h.tag});
      } else {
        assert Owned(t, ns, s') == Owned(t, ns, s);
      }
    }
  }

  /** A mutation of the target under its lock: what it may touch, which outbounds may never
      exist at once, where it began, and the length of the history then. */
  datatype Session = Session(scope: Scope, apart: set<(Tag, Tag)>, start: Server, from: nat)

  predicate Apart(pairs: set<(Tag, Tag)>, s: Server) {
    forall p :: p in pairs ==> !(p.0 in s.outbounds && p.1 in s.outbounds)
  }

  /** In no state of trace[from..to] do both outbounds of a pair exist. */
  ghost predicate NeverBoth(trace: seq<Server>, from: nat, to: nat, pairs: set<(Tag, Tag)>) {
    to <= |trace| && forall k :: from <= k < to ==> Apart(pairs, trace[k])
  }

  /** What a session keeps apart is apart in each of its states. */
  lemma SessionNeverBoth(c: Client, pairs: set<(Tag, Tag)>)
    requires c.Valid() && pairs <= c.session.apart
    ensures NeverBoth(c.trace, c.session.from, |c.trace|, pairs)
  {
    forall k | c.session.from <= k < |c.trace|
      ensures Apart(pairs, c.trace[k])
    {
      c.Ctx().SafeAt(c.trace, k);
    }
  }

  /** The state that work from a to s has built on: a itself, or a freshly booted Xray if it
      restarted in between. */
  ghost function Base(boot: Server, a: Server, s: Server): Server {
    if s.restarts == a.restarts then a else boot.(restarts := s.restarts)
  }

  /** s differs from the start of the session only inside its scope, or from a freshly booted
      Xray if it restarted since; outbounds that must stay apart do. */
  ghost predicate Framed(boot: Server, session: Session, s: Server) {
    && session.start.restarts <= s.restarts
    && Apart(session.apart, s)
    && Rest(session.scope, s) == Rest(session.scope, if s.restarts == session.start.restarts then session.start else boot)
  }

  /** A session that ended: its states are trace[session.from..to]. */
  datatype Closed = Closed(session: Session, to: nat)

  /** Every state of every past session was in its frame. */
  ghost predicate History(boot: Server, past: seq<Closed>, trace: seq<Server>) {
    past != [] ==>
      var n := |past| - 1;
      && History(boot, past[..n], trace)
      && past[n].to <= |trace|
      && forall k :: past[n].session.from <= k < past[n].to ==> Framed(boot, past[n].session, trace[k])
  }

  lemma {:induction false} HistoryAt(boot: Server, past: seq<Closed>, trace: seq<Server>, n: nat, k: nat)
    requires History(boot, past, trace) && n < |past| && past[n].session.from <= k < past[n].to
    ensures k < |trace| && Framed(boot, past[n].session, trace[k])
  {
    if n < |past| - 1 {
      HistoryAt(boot, past[..|past| - 1], trace, n, k);
    }
  }

  lemma {:induction false} HistoryGrows(boot: Server, past: seq<Closed>, trace: seq<Server>, s: Server)
    requires History(boot, past, trace)
    ensures History(boot, past, trace + [s])
  {
    if past != [] {
      HistoryGrows(boot, past[..|past| - 1], trace, s);
    }
  }

  /** What the states of Xray are judged by: the configuration, the state Xray boots into, and
      the current session. */
  datatype World = World(t: Target, caps: seq<Cap>, boot: Server, session: Session) {

    /** Every cap allows at least one outbound, and Xray boots without resources of a capped
        source or of the source at work. */
    ghost predicate Valid() {
      && (forall i :: 0 <= i < |caps| ==> caps[i].limit > 0 && Owned(t, caps[i].ns, boot) == {})
      && session.scope.t == t
      && (session.scope.SourceScope? ==> Clear(session.scope, boot))
      && Apart(session.apart, boot)
    }

    ghost predicate InFrame(s: Server) {
      Framed(boot, session, s)
    }

    /** Every step keeps every cap, and every state of the session is in its frame. */
    ghost predicate Safe(trace: seq<Server>) {
      trace != [] ==>
        var n := |trace| - 1;
        && Safe(trace[..n])
        && (n > 0 ==> WithinCaps(t, caps, trace[n - 1], trace[n]))
        && (session.from <= n ==> InFrame(trace[n]))
    }

    lemma SafeAppend(trace: seq<Server>, s: Server)
      requires Safe(trace) && InFrame(s)
      requires trace != [] ==> WithinCaps(t, caps, trace[|trace| - 1], s)
      ensures Safe(trace + [s])
    {
      assert (trace + [s])[..|trace|] == trace;
    }

    lemma {:induction false} SafeAt(trace: seq<Server>, k: nat)
      requires Safe(trace) && k < |trace|
      ensures k > 0 ==> WithinCaps(t, caps, trace[k - 1], trace[k])
      ensures session.from <= k ==> InFrame(trace[k])
    {
      var n := |trace| - 1;
      if k < n {
        SafeAt(trace[..n], k);
      }
    }

    /** A new session has no states yet. */
    lemma {:induction false} SafeWith(trace: seq<Server>, s: Session)
      requires Safe(trace) && |trace| <= s.from
      ensures this.(session := s).Safe(trace)
    {
      if trace != [] {
        SafeWith(trace[..|trace| - 1], s);
      }
    }

    /** A restart leaves nothing of a capped source, and stays in the frame. */
    lemma Rebooted(a: Server, s: Server)
      requires Valid() && InFrame(a)
      requires a.restarts <= s.restarts && s == Base(boot, a, s)
      ensures InFrame(s) && WithinCaps(t, caps, a, s)
      ensures forall i :: 0 <= i < |caps| && Room(t, caps[i], a) ==> Room(t, caps[i], s)
    {
      if s != a {
        forall i | 0 <= i < |caps|
          ensures Owned(t, caps[i].ns, s) == {}
        {
          assert Owned(t, caps[i].ns, s) == Owned(t, caps[i].ns, boot);
        }
      }
    }
  }

  /** The client of one target. The state x belongs to the remote server; trace records every
      state it has been in, failed and lost count the calls that returned an error and, among
      them, those that took effect all the same. */
  class Client {
    const t: Target
    const caps: seq<Cap>
    const boot: Server    // the resources Xray starts with, from its own configuration
    var x: Server
    ghost var trace: seq<Server>
    ghost var session: Session
    ghost var past: seq<Closed>
    ghost var failed: nat
    ghost var lost: nat

    ghost function Ctx(): World
      reads this
    {
      World(t, caps, boot, session)
    }

    ghost predicate Valid()
      reads this
    {
      && trace != [] && trace[|trace| - 1] == x
      && session.from <= |trace|
      && Ctx().Valid() && Ctx().Safe(trace) && Ctx().InFrame(x)
      && History(boot, past, trace)
    }

    /** Work under the current session. */
    twostate predicate Moved()
      reads this
    {
      && session == old(session) && past == old(past) && old(trace) <= trace && old(x.restarts) <= x.restarts
      && old(failed) <= failed && old(lost) <= lost
    }

    /** Work in the scope of the current session, which may have ended and begun again. */
    twostate predicate Kept()
      reads this
    {
      && session.scope == old(session.scope) && old(trace) <= trace && old(x.restarts) <= x.restarts
      && old(failed) <= failed && old(lost) <= lost
      && Rest(session.scope, x) == Rest(session.scope, Base(boot, old(x), x))
    }

    /** Work that left x as Xray had it. */
    twostate predicate Looked()
      reads this
    {
      Moved() && x == Base(boot, old(x), x)
    }

    /** A restart makes room. */
    twostate predicate RoomKept()
      reads this
    {
      forall i :: 0 <= i < |caps| && Room(t, caps[i], old(x)) ==> Room(t, caps[i], x)
    }

    twostate predicate Tallied(err: Error)
      reads this
    {
      && failed == old(failed) + (if err == RpcError then 1 else 0)
      && lost == old(lost) + (if err == RpcError && x != Base(boot, old(x), x) then 1 else 0)
    }

    constructor (t: Target, caps: seq<Cap>, boot: Server, x: Server)
      requires forall i :: 0 <= i < |caps| ==> caps[i].limit > 0 && Owned(t, caps[i].ns, boot) == {}
      ensures Valid() && this.t == t && this.caps == caps && this.boot == boot && this.x == x && trace == [x]
    {
      this.t, this.caps, this.boot, this.x := t, caps, boot, x;
      trace, failed, lost := [x], 0, 0;
      session, past := Session(OrphanScope(t, []), {}, x, 1), [];
    }

    /** LockTarget: a mutation with the given scope begins. */
    ghost method Begin(scope: Scope, apart: set<(Tag, Tag)>)
      requires Valid() && scope.t == t && (scope.SourceScope? ==> Clear(scope, boot))
      requires Apart(apart, x) && Apart(apart, boot)
      modifies this`session, this`past
      ensures Valid() && session == Session(scope, apart, x, |trace|)
      ensures past == old(past) + [Closed(old(session), |trace|)]
    {
      forall k | session.from <= k < |trace|
        ensures Framed(boot, session, trace[k])
      {
        Ctx().SafeAt(trace, k);
      }
      past := past + [Closed(session, |trace|)];
      assert past[..|past| - 1] == old(past);
      Ctx().SafeWith(trace, Session(scope, apart, x, |trace|));
      session := Session(scope, apart, x, |trace|);
    }

    /** The environment: Xray may have restarted before a call arrives. */
    method Arrive()
      requires Valid()
      modifies this`x, this`trace
      ensures Valid() && Looked() && trace == old(trace) + [x] && RoomKept()
      ensures failed == old(failed) && lost == old(lost)
    {
      var restarted: bool := *;
      var s := if restarted then boot.(restarts := x.restarts + 1) else x;
      Ctx().Rebooted(x, s);
      Ctx().SafeAppend(trace, s);
      HistoryGrows(boot, past, trace, s);
      x := s;
      trace := trace + [x];
    }

    /** The fate of a call that Xray would carry out: done and answered, refused, or done with
        the answer lost. */
    method Fate() returns (done: bool, err: Error)
      ensures err == Nil ==> done
      ensures err == Nil || err == RpcError
    {
      done := *;
      var answered: bool := *;
      err := if done && answered then Nil else RpcError;
    }

    // ---- outbounds

    method ListOutbounds() returns (list: seq<Outbound>, err: Error)
      requires Valid()
      modifies this
      ensures Valid() && Looked() && Tallied(err) && RoomKept()
      ensures err == Nil || err == RpcError
      ensures err == Nil ==>
                && (forall h :: h in list <==> h.tag in x.outbounds && x.outbounds[h.tag] == h.json)
                && (forall i, j :: 0 <= i < j < |list| ==> list[i].tag != list[j].tag)
    {
      Arrive();
      list := [];
      var fails: bool := *;
      if fails {
        failed := failed + 1;
        return list, RpcError;
      }
      var rest := x.outbounds.Keys;
      while rest != {}
        invariant rest <= x.outbounds.Keys
        invariant forall h :: h in list <==> h.tag in x.outbounds && h.tag !in rest && x.outbounds[h.tag] == h.json
        invariant forall i, j :: 0 <= i < j < |list| ==> list[i].tag != list[j].tag
        decreases rest
      {
        var tag :| tag in rest;
        assert forall h :: h in list ==> h.tag != tag;
        list := list + [Outbound(tag, x.outbounds[tag])];
        rest := rest - {tag};
      }
      err := Nil;
    }

    /** CheckCap: Nil only if the source of cap i has room for one more outbound. */
    method CheckCap(cap: Cap) returns (err: Error)
      requires Valid()
      modifies this
      ensures Valid() && Looked() && Tallied(err) && RoomKept()
      ensures err == Nil ==> Room(t, cap, x)
      ensures err == CapReached ==> !Room(t, cap, x)
      ensures err == Nil || err == CapReached || err == RpcError
    {
      var list;
      list, err := ListOutbounds();
      if err != Nil {
        return;
      }
      var n := 0;
      ghost var seen: set<Tag> := {};
      for i := 0 to |list|
        invariant seen == set j | 0 <= j < i && list[j].tag !in t.fixedOutbounds && cap.ns.Owns(KindOutbound, list[j].tag) :: list[j].tag
        invariant n == |seen|
      {
        var tag := list[i].tag;
        if tag !in t.fixedOutbounds && cap.ns.Owns(KindOutbound, tag) {
          assert tag !in seen;
          n := n + 1;
          seen := seen + {tag};
        }
      }
      assert seen == Owned(t, cap.ns, x) by {
        forall tag | tag in Owned(t, cap.ns, x)
          ensures tag in seen
        {
          assert Outbound(tag, x.outbounds[tag]) in list;
        }
      }
      err := if n >= cap.limit then CapReached else Nil;
    }

    /** The checks of the capped client before an outbound with the given tag is sent: every
        source with maxActive that owns the tag must have room, in Xray and not in memory. */
    method CheckCaps(tag: Tag) returns (err: Error)
      requires Valid()
      modifies this
      ensures Valid() && Looked() && Tallied(err)
      ensures err == Nil ==>
                forall i :: 0 <= i < |caps| && caps[i].ns.Owns(KindOutbound, tag) ==> Room(t, caps[i], x)
      ensures err == CapReached ==>
                exists i :: 0 <= i < |caps| && caps[i].ns.Owns(KindOutbound, tag) && !Room(t, caps[i], x)
      ensures err == Nil || err == CapReached || err == RpcError
    {
      for i := 0 to |caps|
        invariant Valid() && Looked() && Tallied(Nil)
        invariant forall j :: 0 <= j < i && caps[j].ns.Owns(KindOutbound, tag) ==> Room(t, caps[j], x)
      {
        if caps[i].ns.Owns(KindOutbound, tag) {
          err := CheckCap(caps[i]);
          if err != Nil {
            return;
          }
        }
      }
      err := Nil;
    }

    /** AddOutbound of the capped client; a duplicate tag fails. */
    method AddOutbound(h: Outbound) returns (err: Error)
      requires Valid() && session.scope.Covers(KindOutbound, h.tag)
      requires Apart(session.apart, x.WithOutbound(h)) && Apart(session.apart, boot.WithOutbound(h))
      modifies this
      ensures Valid() && Moved() && Tallied(err)
      ensures err == Nil ==> Takes(t, caps, Base(boot, old(x), x), h) && x == Base(boot, old(x), x).WithOutbound(h)
      ensures err != Nil ==>
                || x == Base(boot, old(x), x)
                || (err == RpcError && Takes(t, caps, Base(boot, old(x), x), h) && x == Base(boot, old(x), x).WithOutbound(h))
      ensures err == CapReached ==>
                exists i :: 0 <= i < |caps| && caps[i].ns.Owns(KindOutbound, h.tag) && !Room(t, caps[i], x)
      ensures err != BuildError
    {
      err := CheckCaps(h.tag);
      if err == Nil {
        err := SendOutbound(h);
      }
    }

    method SendOutbound(h: Outbound) returns (err: Error)
      requires Valid() && session.scope.Covers(KindOutbound, h.tag)
      requires Apart(session.apart, x.WithOutbound(h)) && Apart(session.apart, boot.WithOutbound(h))
      requires forall i :: 0 <= i < |caps| && caps[i].ns.Owns(KindOutbound, h.tag) ==> Room(t, caps[i], x)
      modifies this
      ensures Valid() && Moved() && Tallied(err)
      ensures err == Nil ==> Takes(t, caps, Base(boot, old(x), x), h) && x == Base(boot, old(x), x).WithOutbound(h)
      ensures err != Nil ==>
                && err == RpcError
                && (x == Base(boot, old(x), x) || (Takes(t, caps, Base(boot, old(x), x), h) && x == Base(boot, old(x), x).WithOutbound(h)))
    {
      Arrive();
      var done;
      done, err := Fate();
      var s := x;
      if done && h.tag !in x.outbounds {
        s := x.WithOutbound(h);
        AddWithinCaps(t, caps, x, h);
        RestOfOutbounds(session.scope, x, h);
      } else {
        err := RpcError;
      }
      Settle(s, err);
    }

    /** The call ends: Xray is in state s and answers err. */
    method Settle(s: Server, err: Error)
      requires Valid() && Ctx().InFrame(s) && WithinCaps(t, caps, x, s)
      modifies this
      ensures Valid() && session == old(session) && past == old(past)
      ensures x == s && trace == old(trace) + [s]
      ensures failed == old(failed) + (if err == RpcError then 1 else 0)
      ensures lost == old(lost) + (if err == RpcError && s != old(x) then 1 else 0)
    {
      Ctx().SafeAppend(trace, s);
      HistoryGrows(boot, past, trace, s);
      failed := failed + if err == RpcError then 1 else 0;
      lost := lost + if err == RpcError && s != x then 1 else 0;
      x := s;
      trace := trace + [s];
    }

    /** RemoveOutbound: an unknown tag succeeds. */
    method RemoveOutbound(tag: Tag) returns (err: Error)
      requires Valid() && session.scope.Covers(KindOutbound, tag)
      modifies this
      ensures Valid() && Moved() && Tallied(err)
      ensures err == Nil ==> x == Base(boot, old(x), x).WithoutOutbound(tag)
      ensures err != Nil ==> err == RpcError && (x == Base(boot, old(x), x) || x == Base(boot, old(x), x).WithoutOutbound(tag))
      ensures session.scope.SourceScope? && x.restarts != old(x.restarts) ==> x == Base(boot, old(x), x)
    {
      Arrive();
      var done;
      done, err := Fate();
      var s := if done then x.WithoutOutbound(tag) else x;
      FewerWithinCaps(t, caps, x, s);
      RestOfOutbounds(session.scope, x, Outbound(tag, ""));
      assert tag !in x.outbounds ==> x.WithoutOutbound(tag) == x;
      Settle(s, err);
    }

    // ---- inbounds

    method ListInbounds() returns (list: seq<Inbound>, err: Error)
      requires Valid()
      modifies this
      ensures Valid() && Looked() && Tallied(err)
      ensures err == Nil || err == RpcError
      ensures err == Nil ==>
                && (forall h :: h in list <==> h.tag in x.inbounds && x.inbounds[h.tag] == Listener(h.listen, h.port))
                && (forall i, j :: 0 <= i < j < |list| ==> list[i].tag != list[j].tag)
    {
      Arrive();
      list := [];
      var fails: bool := *;
      if fails {
        failed := failed + 1;
        return list, RpcError;
      }
      var rest := x.inbounds.Keys;
      while rest != {}
        invariant rest <= x.inbounds.Keys
        invariant forall h :: h in list <==>
                    h.tag in x.inbounds && h.tag !in rest && x.inbounds[h.tag] == Listener(h.listen, h.port)
        invariant forall i, j :: 0 <= i < j < |list| ==> list[i].tag != list[j].tag
        decreases rest
      {
        var tag :| tag in rest;
        assert forall h :: h in list ==> h.tag != tag;
        list := list + [Inbound(tag, x.inbounds[tag].listen, x.inbounds[tag].port)];
        rest := rest - {tag};
      }
      err := Nil;
    }

    /** AddInbound: a duplicate tag fails. */
    method AddInbound(h: Inbound) returns (err: Error)
      requires Valid() && session.scope.Covers(KindInbound, h.tag)
      modifies this
      ensures Valid() && Moved() && Tallied(err)
      ensures err == Nil ==> h.tag !in Base(boot, old(x), x).inbounds && x == Base(boot, old(x), x).WithInbound(h)
      ensures err != Nil ==>
                err == RpcError && (x == Base(boot, old(x), x) || (h.tag !in Base(boot, old(x), x).inbounds && x == Base(boot, old(x), x).WithInbound(h)))
    {
      Arrive();
      var done;
      done, err := Fate();
      var s := x;
      if done && h.tag !in x.inbounds {
        s := x.WithInbound(h);
      } else {
        err := RpcError;
      }
      RestOfInbounds(session.scope, x, h);
      FewerWithinCaps(t, caps, x, s);
      Settle(s, err);
    }

    /** RemoveInbound: an unknown tag fails. */
    method RemoveInbound(tag: Tag) returns (err: Error)
      requires Valid() && session.scope.Covers(KindInbound, tag)
      modifies this
      ensures Valid() && Moved() && Tallied(err)
      ensures err == Nil ==> tag in Base(boot, old(x), x).inbounds && x == Base(boot, old(x), x).WithoutInbound(tag)
      ensures err != Nil ==>
                err == RpcError && (x == Base(boot, old(x), x) || (tag in Base(boot, old(x), x).inbounds && x == Base(boot, old(x), x).WithoutInbound(tag)))
    {
      Arrive();
      var done;
      done, err := Fate();
      var s := x;
      if done && tag in x.inbounds {
        s := x.WithoutInbound(tag);
      } else {
        err := RpcError;
      }
      RestOfInbounds(session.scope, x, Inbound(tag, "", 0));
      FewerWithinCaps(t, caps, x, s);
      Settle(s, err);
    }

    // ---- routing rules

    method ListRules() returns (list: seq<Rule>, err: Error)
      requires Valid()
      modifies this
      ensures Valid() && Looked() && Tallied(err)
      ensures err == Nil || err == RpcError
      ensures err == Nil ==> list == x.rules
    {
      Arrive();
      var fails: bool := *;
      if fails {
        failed := failed + 1;
        return [], RpcError;
      }
      return x.rules, Nil;
    }

    /** AddRule appends r. */
    method AddRule(r: Rule) returns (err: Error)
      requires Valid() && session.scope.Covers(KindRouting, r.ruleTag)
      modifies this
      ensures Valid() && Moved() && Tallied(err)
      ensures err == Nil ==> x == Base(boot, old(x), x).WithRule(r)
      ensures err != Nil ==> err == RpcError && (x == Base(boot, old(x), x) || x == Base(boot, old(x), x).WithRule(r))
    {
      Arrive();
      var done;
      done, err := Fate();
      var s := if done then x.WithRule(r) else x;
      RestOfRules(session.scope, x, r);
      FewerWithinCaps(t, caps, x, s);
      Settle(s, err);
    }

    /** RemoveRule removes every rule with the tag; "" fails, an unknown tag succeeds. */
    method RemoveRule(tag: Tag) returns (err: Error)
      requires Valid() && session.scope.Covers(KindRouting, tag)
      modifies this
      ensures Valid() && Moved() && Tallied(err)
      ensures err == Nil ==> tag != "" && x == Base(boot, old(x), x).WithoutRule(tag)
      ensures err != Nil ==>
                err == RpcError && (x == Base(boot, old(x), x) || (tag != "" && x == Base(boot, old(x), x).WithoutRule(tag)))
    {
      Arrive();
      var done;
      done, err := Fate();
      var s := x;
      if done && tag != "" {
        s := x.WithoutRule(tag);
      } else {
        err := RpcError;
      }
      RestOfRules(session.scope, x, Rule(tag, "", ""));
      FewerWithinCaps(t, caps, x, s);
      Settle(s, err);
    }
  }
}
