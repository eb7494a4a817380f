/** A sync of a candidate source that Xray still has: single slots are replaced or removed, then
    empty ones filled (internal/scd/syncer/wireguard.go, decide and fill). */
module SlotSync {
  import opened Namespaces
  import Sets
  import opened SourceRules
  import opened Selection
  import opened Decide
  import opened XrayApi
  import opened Topology
  import opened RepairCalls
  import opened TargetState
  import opened Slots
  import opened Plans
  import opened FailureCounts

  // ---- the slots as selection sees them

  predicate HealthySlot(tn: Tun) {
    tn.monitor.health != Degraded && tn.monitor.health != Repairing && tn.mapping.outboundTagCurrent == tn.mapping.outboundTagInitial
  }

  /** The candidate of a tunnel: from the file, else from the last one, else only its tag. */
  function KnownAs(tag: Tag, last: seq<Entry>, ranked: seq<Entry>): Candidate {
    if InFile(ranked, tag) then EntryOf(ranked, tag).value.candidate
    else if InFile(last, tag) then EntryOf(last, tag).value.candidate
    else Candidate(tag, "", None, None, "", "", "", 0)
  }

  function SlotsOf(tuns: seq<Tun>, last: seq<Entry>, ranked: seq<Entry>): (r: seq<Slot>)
    ensures |r| == |tuns|
    ensures forall i :: 0 <= i < |r| ==> r[i].candidate.tag == tuns[i].mapping.baseTunnelId
  {
    seq(|tuns|, i requires 0 <= i < |tuns| => Slot(KnownAs(tuns[i].mapping.baseTunnelId, last, ranked), HealthySlot(tuns[i])))
  }

  lemma ByTagIsEntry(ranked: seq<Entry>, tag: Tag)
    requires UniqueTags(ranked)
    ensures ByTag(Candidates(ranked), tag).Some? <==> InFile(ranked, tag)
    ensures InFile(ranked, tag) ==> ByTag(Candidates(ranked), tag).value == EntryOf(ranked, tag).value.candidate
  {
    var cands := Candidates(ranked);
    if InFile(ranked, tag) {
      var e := EntryOf(ranked, tag).value;
      var k :| 0 <= k < |ranked| && ranked[k] == e;
      assert cands[k] == e.candidate && cands[k] in cands;
      var found := ByTag(cands, tag);
      var m :| 0 <= m < |cands| && cands[m] == found.value;
      EntryIsUnique(ranked, ranked[m], e);
    } else {
      forall c | c in cands
        ensures c.tag != tag
      {
        var m :| 0 <= m < |cands| && cands[m] == c;
        assert ranked[m] in ranked;
      }
    }
  }

  predicate DistinctBases(tuns: seq<Tun>) {
    forall i, j :: 0 <= i < j < |tuns| ==> tuns[i].mapping.baseTunnelId != tuns[j].mapping.baseTunnelId
  }

  lemma BlockIsDistinct(tg: TargetState.Target, id: string)
    requires tg.Valid() && id in tg.sources
    ensures DistinctBases(Block(tg.tunnels, id))
  {
    var tuns, topology := Block(tg.tunnels, id), tg.sources[id].topology;
    forall i, j | 0 <= i < j < |tuns|
      ensures tuns[i].mapping.baseTunnelId != tuns[j].mapping.baseTunnelId
    {
      assert TunnelIds(topology)[i] != TunnelIds(topology)[j];
    }
  }

  /** What a decision needs of the slots. */
  lemma SlotsAreValid(f: Feed, tuns: seq<Tun>, last: seq<Entry>, ranked: seq<Entry>)
    requires FileOk(f, ranked) && DistinctBases(tuns) && Keyed(f, tuns, last)
    ensures KeysMatch(SlotsOf(tuns, last, ranked), Candidates(ranked))
    ensures Decide.Exclusive(Present(SlotsOf(tuns, last, ranked), Candidates(ranked)))
    ensures DistinctTags(Candidates(ranked))
  {
    var active, cands := SlotsOf(tuns, last, ranked), Candidates(ranked);
    var fin := Present(active, cands);
    forall i | 0 <= i < |active| && fin[i].Some?
      ensures fin[i].value == active[i].candidate && fin[i].value.key == f.keyOf(tuns[i].mapping.baseTunnelId)
    {
      ByTagIsEntry(ranked, active[i].candidate.tag);
    }
    forall i, j | 0 <= i < j < |fin| && fin[i].Some? && fin[j].Some?
      ensures fin[i].value.tag != fin[j].value.tag && fin[i].value.key != fin[j].value.key
    {
      assert tuns[i] in tuns && tuns[j] in tuns;
    }
  }

  // ---- carrying out a decision

  /** The tags the slots hold after the first n actions. */
  function Held(slots: seq<Tun>, actions: seq<Action>, n: nat): set<Tag>
    requires n <= |actions| == |slots|
  {
    if n == 0 then Bases(slots)
    else
      var held, base := Held(slots, actions, n - 1), slots[n - 1].mapping.baseTunnelId;
      match actions[n - 1]
      case Keep => held
      case Replace(to, _) => held - {base} + {to.tag}
      case Remove(_) => held - {base}
  }

  /** What is asked of actions: replacing candidates are in the file, not active, and differ. */
  ghost predicate CanCarryOut(slots: seq<Tun>, actions: seq<Action>, ranked: seq<Entry>) {
    && |actions| == |slots|
    && (forall i :: 0 <= i < |actions| && actions[i].Replace? ==>
          InFile(ranked, actions[i].to.tag) && actions[i].to.tag !in Bases(slots))
    && (forall i, j :: 0 <= i < j < |actions| && actions[i].Replace? && actions[j].Replace? ==>
          actions[i].to.tag != actions[j].to.tag)
  }

  lemma {:induction false} HeldWithin(slots: seq<Tun>, actions: seq<Action>, n: nat)
    requires n <= |actions| == |slots|
    ensures forall t :: t in Held(slots, actions, n) ==>
              t in Bases(slots) || exists j :: 0 <= j < n && actions[j].Replace? && actions[j].to.tag == t
  {
    if n > 0 {
      HeldWithin(slots, actions, n - 1);
      forall t | t in Held(slots, actions, n) && t !in Bases(slots)
        ensures exists j :: 0 <= j < n && actions[j].Replace? && actions[j].to.tag == t
      {
        if t in Held(slots, actions, n - 1) {
          var j :| 0 <= j < n - 1 && actions[j].Replace? && actions[j].to.tag == t;
        } else {
          assert actions[n - 1].Replace? && actions[n - 1].to.tag == t;
        }
      }
    }
  }

  /** The replacing candidate of slot i holds no slot yet. */
  lemma ReplacementIsFree(slots: seq<Tun>, actions: seq<Action>, ranked: seq<Entry>, i: nat)
    requires CanCarryOut(slots, actions, ranked) && i < |actions| && actions[i].Replace?
    ensures actions[i].to.tag !in Held(slots, actions, i)
  {
    HeldWithin(slots, actions, i);
  }

  /** The state of the work on a source under its lock. */
  ghost predicate At(c: Client, tg: TargetState.Target, f: Feed, full: nat, a: Server)
    reads c, tg
  {
    Ready(c, tg, f, full) && Within(f, c.boot, a, c.x)
  }

  /** One action. */
  method Act(c: Client, tg: TargetState.Target, f: Feed, ghost full: nat, ghost a: Server, tun: Tun, action: Action, ranked: seq<Entry>)
    returns (err: Error)
    requires At(c, tg, f, full, a) && FileOk(f, ranked)
    requires tun in Block(tg.tunnels, f.ns.sourceId) && tg.sources[f.ns.sourceId].hashes != map[]
    requires action.Replace? ==> InFile(ranked, action.to.tag) && action.to.tag !in Bases(Block(tg.tunnels, f.ns.sourceId))
    modifies c, tg
    ensures At(c, tg, f, full, a) && tg.OthersKept(f.ns.sourceId) && old(c.trace) <= c.trace
    ensures SameFile(old(tg.sources)[f.ns.sourceId], tg.sources[f.ns.sourceId])
    ensures if err == Nil then tg.sources[f.ns.sourceId].hashes != map[] else tg.sources[f.ns.sourceId].hashes == map[]
    ensures err == Nil ==>
              Bases(Block(tg.tunnels, f.ns.sourceId)) ==
              match action
              case Keep => Bases(old(Block(tg.tunnels, f.ns.sourceId)))
              case Replace(to, _) => Bases(old(Block(tg.tunnels, f.ns.sourceId))) - {tun.mapping.baseTunnelId} + {to.tag}
              case Remove(_) => Bases(old(Block(tg.tunnels, f.ns.sourceId))) - {tun.mapping.baseTunnelId}
    ensures forall tn :: tn in old(Block(tg.tunnels, f.ns.sourceId)) && tn.mapping.baseTunnelId != tun.mapping.baseTunnelId ==>
              tn in Block(tg.tunnels, f.ns.sourceId)
    ensures NoMoreFailures(old(Block(tg.tunnels, f.ns.sourceId)), Block(tg.tunnels, f.ns.sourceId))
  {
    err := Nil;
    var id := f.ns.sourceId;
    ghost var b, tuns := c.x, Block(tg.tunnels, id);
    var ruleErr;
    ghost var slot: Option<Tunnel> := None;
    match action {
      case Keep =>
        return;
      case Replace(to, _) =>
        var next := f.TunnelOf(EntryOf(ranked, to.tag).value, tun.mapping.port);
        ruleErr, err := ReplaceSlot(c, tg, f, full, id, tun, next);
        slot := if err == Nil then Some(next) else None;
      case Remove(_) =>
        ruleErr, err := RemoveSlot(c, tg, f, full, id, tun);
    }
    SwappedCounts(tuns, id, tun.mapping.baseTunnelId, slot, Block(tg.tunnels, id));
    SessionStays(c, f, b);
    WithinTransitive(f, c.boot, a, b, c.x);
  }

  /** The work on the source so far: only it changed, and its file did not. */
  twostate predicate Advanced(c: Client, tg: TargetState.Target, f: Feed)
    reads c, tg
  {
    && tg.OthersKept(f.ns.sourceId) && old(c.trace) <= c.trace
    && f.ns.sourceId in tg.sources && f.ns.sourceId in old(tg.sources)
    && SameFile(old(tg.sources)[f.ns.sourceId], tg.sources[f.ns.sourceId])
    && NoMoreFailures(old(Block(tg.tunnels, f.ns.sourceId)), Block(tg.tunnels, f.ns.sourceId))
  }

  /** The first i actions are carried out. */
  ghost predicate Carried(c: Client, tg: TargetState.Target, f: Feed, full: nat, a: Server, slots: seq<Tun>, actions: seq<Action>, i: nat)
    requires i <= |slots| == |actions|
    reads c, tg
  {
    && At(c, tg, f, full, a) && tg.sources[f.ns.sourceId].hashes != map[]
    && Bases(Block(tg.tunnels, f.ns.sourceId)) == Held(slots, actions, i)
    && forall j :: i <= j < |slots| ==> slots[j] in Block(tg.tunnels, f.ns.sourceId)
  }

  method ActNext(c: Client, tg: TargetState.Target, f: Feed, ghost full: nat, ghost a: Server, slots: seq<Tun>, actions: seq<Action>,
                 ranked: seq<Entry>, i: nat)
    returns (err: Error)
    requires FileOk(f, ranked) && CanCarryOut(slots, actions, ranked) && DistinctBases(slots) && i < |slots|
    requires Carried(c, tg, f, full, a, slots, actions, i)
    modifies c, tg
    ensures Advanced(c, tg, f) && At(c, tg, f, full, a)
    ensures if err == Nil then Carried(c, tg, f, full, a, slots, actions, i + 1) else tg.sources[f.ns.sourceId].hashes == map[]
  {
    if actions[i].Replace? {
      ReplacementIsFree(slots, actions, ranked, i);
    }
    err := Act(c, tg, f, full, a, slots[i], actions[i], ranked);
  }

  /** The loop of decide: the actions in slot order, up to the first failure. */
  method CarryOut(c: Client, tg: TargetState.Target, f: Feed, ghost full: nat, slots: seq<Tun>, actions: seq<Action>, ranked: seq<Entry>)
    returns (err: Error)
    requires Ready(c, tg, f, full) && FileOk(f, ranked)
    requires slots == Block(tg.tunnels, f.ns.sourceId) && tg.sources[f.ns.sourceId].hashes != map[]
    requires CanCarryOut(slots, actions, ranked)
    modifies c, tg
    ensures Advanced(c, tg, f) && At(c, tg, f, full, old(c.x))
    ensures if err == Nil then Carried(c, tg, f, full, old(c.x), slots, actions, |slots|)
            else tg.sources[f.ns.sourceId].hashes == map[]
  {
    err := Nil;
    BlockIsDistinct(tg, f.ns.sourceId);
    ghost var a := c.x;
    var i := 0;
    while i < |slots| && err == Nil
      invariant i <= |slots| && Advanced(c, tg, f) && At(c, tg, f, full, a)
      invariant if err == Nil then Carried(c, tg, f, full, a, slots, actions, i) else tg.sources[f.ns.sourceId].hashes == map[]
      decreases |slots| - i
    {
      err := ActNext(c, tg, f, full, a, slots, actions, ranked, i);
      i := i + 1;
    }
  }

  // ---- after a decision

  /** slots after decision r about x, from the file ranked. */
  ghost predicate Decided(f: Feed, slots: seq<Tun>, x: Input, r: Run, ranked: seq<Entry>) {
    && FileOk(f, ranked) && DistinctBases(slots) && CanCarryOut(slots, r.actions, ranked)
    && x.Valid() && Decides(x, r) && x.ranked == Candidates(ranked) && |x.active| == |slots|
    && forall i :: 0 <= i < |slots| ==> x.active[i].candidate.tag == slots[i].mapping.baseTunnelId
  }

  /** What a decision gives the slots is in the file and has pairwise distinct keys. */
  lemma {:induction false} DecidedIsKeyed(f: Feed, slots: seq<Tun>, x: Input, r: Run, ranked: seq<Entry>, tuns: seq<Tun>)
    requires Decided(f, slots, x, r, ranked) && Bases(tuns) == Held(slots, r.actions, |slots|)
    ensures Keyed(f, tuns, ranked)
  {
    DecisionIsSound(x, r);
    var fin := Final(x.active, x.ranked, r.actions);
    forall tn | tn in tuns
      ensures InFile(ranked, tn.mapping.baseTunnelId)
    {
      var j := HolderInFile(f, slots, x, r, ranked, tn.mapping.baseTunnelId);
    }
    forall a, b | a in tuns && b in tuns && a.mapping.baseTunnelId != b.mapping.baseTunnelId
      ensures f.keyOf(a.mapping.baseTunnelId) != f.keyOf(b.mapping.baseTunnelId)
    {
      var j := HolderInFile(f, slots, x, r, ranked, a.mapping.baseTunnelId);
      var k := HolderInFile(f, slots, x, r, ranked, b.mapping.baseTunnelId);
    }
  }

  lemma {:induction false} HolderInFile(f: Feed, slots: seq<Tun>, x: Input, r: Run, ranked: seq<Entry>, t: Tag) returns (j: nat)
    requires Decided(f, slots, x, r, ranked) && t in Held(slots, r.actions, |slots|)
    ensures InFile(ranked, t) && j < |slots| && HoldsTag(f, Final(x.active, x.ranked, r.actions), j, t)
  {
    DecisionIsSound(x, r);
    j := HolderOf(slots, r.actions, |slots|, t);
    assert SoundAction(x, j, r.actions[j]);
    if r.actions[j] == Keep {
      ByTagIsEntry(ranked, t);
    }
    var c := Final(x.active, x.ranked, r.actions)[j].value;
    assert c in x.ranked;
    var k :| 0 <= k < |ranked| && ranked[k].candidate == c;
    assert ranked[k] in ranked;
  }

  predicate HoldsTag(f: Feed, fin: Assignment, j: nat, t: Tag)
    requires j < |fin|
  {
    fin[j].Some? && fin[j].value.tag == t && fin[j].value.key == f.keyOf(t)
  }

  /** The slot that holds a tag after the first n actions. */
  lemma {:induction false} HolderOf(slots: seq<Tun>, actions: seq<Action>, n: nat, t: Tag) returns (j: nat)
    requires n <= |actions| == |slots| && t in Held(slots, actions, n) && DistinctBases(slots)
    requires forall i :: 0 <= i < |actions| && actions[i].Replace? ==> actions[i].to.tag !in Bases(slots)
    ensures j < |slots|
    ensures if j < n && actions[j].Replace? then actions[j].to.tag == t
            else (j < n ==> actions[j] == Keep) && slots[j].mapping.baseTunnelId == t
  {
    if n == 0 {
      var tn :| tn in slots && tn.mapping.baseTunnelId == t;
      j :| 0 <= j < |slots| && slots[j] == tn;
    } else if actions[n - 1].Replace? && actions[n - 1].to.tag == t {
      j := n - 1;
    } else {
      j := HolderOf(slots, actions, n - 1, t);
      assert slots[n - 1] in slots && slots[j] in slots;
    }
  }

  // ---- keys while a decision is carried out

  /** No two of the tags have the same key. */
  predicate KeysApart(f: Feed, tags: set<Tag>) {
    forall a, b :: a in tags && b in tags && a != b ==> f.keyOf(a) != f.keyOf(b)
  }

  lemma KeyedApart(f: Feed, tuns: seq<Tun>, file: seq<Entry>)
    requires Keyed(f, tuns, file)
    ensures KeysApart(f, Bases(tuns))
  {
  }

  /** Action i replaces with the key of a later slot whose candidate left the file: until that slot
      is acted on the key runs twice. */
  predicate TakesKeyOfGone(f: Feed, slots: seq<Tun>, actions: seq<Action>, ranked: seq<Entry>, i: nat, j: nat)
    requires |actions| == |slots|
  {
    && i < j < |slots| && actions[i].Replace?
    && !InFile(ranked, slots[j].mapping.baseTunnelId)
    && f.keyOf(actions[i].to.tag) == f.keyOf(slots[j].mapping.baseTunnelId)
  }

  /** A slot not acted on yet holds its tag. */
  lemma {:induction false} StillHeld(slots: seq<Tun>, actions: seq<Action>, n: nat, j: nat)
    requires n <= j < |slots| == |actions| && DistinctBases(slots)
    ensures slots[j].mapping.baseTunnelId in Held(slots, actions, n)
  {
    if n == 0 {
      assert slots[j] in slots;
    } else {
      StillHeld(slots, actions, n - 1, j);
    }
  }

  /** What replaces slot i has another key than every later slot whose candidate is in the file. */
  lemma {:induction false} NewKeyIsFree(f: Feed, slots: seq<Tun>, x: Input, r: Run, ranked: seq<Entry>, i: nat, j: nat)
    requires Decided(f, slots, x, r, ranked) && i < j < |slots| && r.actions[i].Replace?
    requires InFile(ranked, slots[j].mapping.baseTunnelId)
    ensures f.keyOf(r.actions[i].to.tag) != f.keyOf(slots[j].mapping.baseTunnelId)
  {
    var n, to := |slots|, r.actions[i].to;
    var cur := ByTag(x.ranked, x.active[j].candidate.tag);
    KeyOfFile(f, ranked, slots[j].mapping.baseTunnelId);
    DecisionIsSound(x, r);
    assert SoundAction(x, i, r.actions[i]);
    KeyOfCandidate(f, ranked, to);
    assert x.RefillStep(j, r.refill[j], r.firsts[j], r.refill[j + 1]);
    FirstPassAssigns(x, n, r.firsts, r.refill);
    if r.actions[i] == r.firsts[i] {
      assert x.RefillStep(i, r.refill[i], r.firsts[i], r.refill[i + 1]);
      FirstPassAssigns(x, i, r.firsts[..i], r.refill[..i + 1]);
      assert r.refill[i][j] == cur;
      assert cur.value.key in KeysIn(r.refill[i]);
    } else {
      var upTo := r.(actions := r.actions[..i], switch := r.switch[..i + 1], challengers := r.challengers[..i], counts := r.counts[..i + 1]);
      SecondPassAssigns(x, i, upTo);
      assert x.SwitchStep(i, r.switch[i], r.counts[i], r.firsts[i], r.challengers[i], r.actions[i], r.switch[i + 1], r.counts[i + 1]);
      var fin := r.switch[i][i := None];
      assert fin[j] == cur;
      assert cur.value.key in KeysIn(fin);
    }
  }

  lemma KeyOfFile(f: Feed, ranked: seq<Entry>, tag: Tag)
    requires FileOk(f, ranked) && InFile(ranked, tag)
    ensures ByTag(Candidates(ranked), tag).Some? && ByTag(Candidates(ranked), tag).value.key == f.keyOf(tag)
  {
    ByTagIsEntry(ranked, tag);
    assert EntryOf(ranked, tag).value in ranked;
  }

  lemma KeyOfCandidate(f: Feed, ranked: seq<Entry>, c: Candidate)
    requires FileOk(f, ranked) && c in Candidates(ranked)
    ensures c.key == f.keyOf(c.tag)
  {
    var k :| 0 <= k < |ranked| && Candidates(ranked)[k] == c;
    assert ranked[k] in ranked;
  }

  /** Two slots that keep or take their final candidate have different keys. */
  lemma {:induction false} FinalKeysApart(f: Feed, slots: seq<Tun>, x: Input, r: Run, ranked: seq<Entry>, i: nat, j: nat, a: Tag, b: Tag)
    requires Decided(f, slots, x, r, ranked) && i < |slots| && j < |slots| && i != j
    requires SettlesOn(slots, r.actions, i, a) && SettlesOn(slots, r.actions, j, b)
    ensures f.keyOf(a) != f.keyOf(b)
  {
    DecisionIsSound(x, r);
    FinalKey(f, slots, x, r, ranked, i, a);
    FinalKey(f, slots, x, r, ranked, j, b);
  }

  /** The action of slot i leaves it with the tag. */
  predicate SettlesOn(slots: seq<Tun>, actions: seq<Action>, i: nat, tag: Tag)
    requires i < |slots| == |actions|
  {
    if actions[i].Replace? then actions[i].to.tag == tag else actions[i] == Keep && slots[i].mapping.baseTunnelId == tag
  }

  lemma {:induction false} FinalKey(f: Feed, slots: seq<Tun>, x: Input, r: Run, ranked: seq<Entry>, i: nat, tag: Tag)
    requires Decided(f, slots, x, r, ranked) && i < |slots| && SettlesOn(slots, r.actions, i, tag)
    ensures HoldsTag(f, Final(x.active, x.ranked, r.actions), i, tag)
  {
    DecisionIsSound(x, r);
    assert SoundAction(x, i, r.actions[i]);
    if r.actions[i].Replace? {
      KeyOfCandidate(f, ranked, r.actions[i].to);
    } else {
      ByTagIsEntry(ranked, tag);
      KeyOfFile(f, ranked, tag);
    }
  }

  /** After the first n actions two tags of one key mean that a replacement took the key of a later
      slot whose candidate left the file. */
  lemma {:induction false} SameKeyMeans(f: Feed, slots: seq<Tun>, x: Input, r: Run, ranked: seq<Entry>, n: nat, a: Tag, b: Tag)
    returns (i: nat, j: nat)
    requires Decided(f, slots, x, r, ranked) && n <= |slots| && KeysApart(f, Bases(slots))
    requires a in Held(slots, r.actions, n) && b in Held(slots, r.actions, n) && a != b && f.keyOf(a) == f.keyOf(b)
    ensures TakesKeyOfGone(f, slots, r.actions, ranked, i, j)
  {
    i := HolderOf(slots, r.actions, n, a);
    j := HolderOf(slots, r.actions, n, b);
    assert slots[i] in slots && slots[j] in slots;
    if i < n && j < n {
      FinalKeysApart(f, slots, x, r, ranked, i, j, a, b);
    } else {
      if i >= n {
        i, j := j, i;
      }
      if InFile(ranked, slots[j].mapping.baseTunnelId) {
        if i < n && r.actions[i].Replace? {
          NewKeyIsFree(f, slots, x, r, ranked, i, j);
        }
      }
    }
  }

  /** While a decision is carried out the slots never hold two tags of one key, exactly when no
      action replaces with the key of a later slot whose candidate left the file. */
  lemma {:induction false} KeysStayApartExactlyWhen(f: Feed, slots: seq<Tun>, x: Input, r: Run, ranked: seq<Entry>)
    requires Decided(f, slots, x, r, ranked) && KeysApart(f, Bases(slots))
    ensures (forall n :: 0 <= n <= |slots| ==> KeysApart(f, Held(slots, r.actions, n))) <==>
            !exists i: nat, j: nat :: TakesKeyOfGone(f, slots, r.actions, ranked, i, j)
  {
    if i: nat, j: nat :| TakesKeyOfGone(f, slots, r.actions, ranked, i, j) {
      StillHeld(slots, r.actions, i + 1, j);
      assert r.actions[i].to.tag in Held(slots, r.actions, i + 1);
      assert slots[j] in slots;
      assert !KeysApart(f, Held(slots, r.actions, i + 1));
    } else {
      forall n | 0 <= n <= |slots|
        ensures KeysApart(f, Held(slots, r.actions, n))
      {
        forall a, b | a in Held(slots, r.actions, n) && b in Held(slots, r.actions, n) && a != b
          ensures f.keyOf(a) != f.keyOf(b)
        {
          if f.keyOf(a) == f.keyOf(b) {
            var i, j := SameKeyMeans(f, slots, x, r, ranked, n, a, b);
          }
        }
      }
    }
  }

  /** No candidate of the file that is not active has the key of an active one that left it. */
  predicate NoKeyOfGone(f: Feed, slots: seq<Tun>, ranked: seq<Entry>) {
    forall e, tn :: e in ranked && tn in slots && e.candidate.tag !in Bases(slots) && !InFile(ranked, tn.mapping.baseTunnelId) ==>
      e.candidate.key != f.keyOf(tn.mapping.baseTunnelId)
  }

  /** Known before the decision: if the file is such, no key ever runs twice, whatever is decided. */
  lemma NoKeyOfGoneSuffices(f: Feed, slots: seq<Tun>, x: Input, r: Run, ranked: seq<Entry>, n: nat)
    requires Decided(f, slots, x, r, ranked) && KeysApart(f, Bases(slots)) && NoKeyOfGone(f, slots, ranked) && n <= |slots|
    ensures KeysApart(f, Held(slots, r.actions, n))
  {
    forall i | 0 <= i < |slots| && r.actions[i].Replace?
      ensures exists e :: e in ranked && e.candidate.tag == r.actions[i].to.tag && e.candidate.key == f.keyOf(e.candidate.tag)
    {
      var e := EntryOf(ranked, r.actions[i].to.tag).value;
      assert e in ranked;
    }
    assert forall j :: 0 <= j < |slots| ==> slots[j] in slots;
    KeysStayApartExactlyWhen(f, slots, x, r, ranked);
  }

  // ---- a decision that runs a key twice

  const KeyOne: Key := "1"
  const KeyTwo: Key := "2"

  function CandidateOf(tag: Tag, key: Key): Candidate {
    Candidate(tag, "", None, Some(1.0), key, tag, "", 0)
  }

  /** A source with two slots; B and C have one key. */
  function TwoSlots(): Feed {
    Feed(SourceRules.Target("", [], [], []), Namespace("", "s"), 2, 1000, "", tag => if tag == "s-A" then KeyOne else KeyTwo)
  }

  function RunningAB(): seq<Tun> {
    var f := TwoSlots();
    [Tun(f.TunnelOf(Entry(CandidateOf("s-A", KeyOne), ""), 1000), IDLE), Tun(f.TunnelOf(Entry(CandidateOf("s-B", KeyTwo), ""), 1001), IDLE)]
  }

  function FileC(): seq<Entry> {
    [Entry(CandidateOf("s-C", KeyTwo), "")]
  }

  function GoneBoth(): Input {
    Input([Slot(CandidateOf("s-A", KeyOne), true), Slot(CandidateOf("s-B", KeyTwo), true)], [CandidateOf("s-C", KeyTwo)], map[], map[], 0,
          Config(ByScore, 0, 1, 0, 1))
  }

  /** Slot 0 is given to C, then slot 1 removed. */
  function SwapThenRemove(): Run {
    var none, one: Assignment := [None, None], [Some(CandidateOf("s-C", KeyTwo)), None];
    var actions := [Replace(CandidateOf("s-C", KeyTwo), Gone), Remove(Gone)];
    Run(actions, [none, one, one], actions, [one, one, one], [None, None], [map[], map[], map[]])
  }

  lemma GoneBothDecides()
    ensures GoneBoth().Valid() && Decides(GoneBoth(), SwapThenRemove())
  {
    var x, r, c := GoneBoth(), SwapThenRemove(), CandidateOf("s-C", KeyTwo);
    var none, one := r.refill[0], r.refill[1];
    assert ByTag([c], "s-A") == None && ByTag([c], "s-B") == None;
    assert Present(x.active, x.ranked) == none;
    assert x.active[0].candidate.tag == "s-A" && x.active[1].candidate.tag == "s-B";
    assert KeysIn(none) == {} && TagsIn(none) == {} && "s-C" !in ActiveTags(x.active);
    assert x.RefillStep(0, none, r.firsts[0], one);
    assert one[0].Some? && "s-C" in TagsIn(one) && [c][1..] == [];
    assert x.RefillStep(1, one, r.firsts[1], one);
    assert FirstPass(x, 2, r.firsts, r.refill);
    assert SecondPass(x, 2, r);
  }

  lemma RunningABFacts()
    ensures var slots := RunningAB();
            && slots[0].mapping.baseTunnelId == "s-A" && slots[1].mapping.baseTunnelId == "s-B"
            && Bases(slots) == {"s-A", "s-B"}
  {
    var slots := RunningAB();
    assert slots[0] in slots && slots[1] in slots;
  }

  lemma GoneBothDecided()
    ensures Decided(TwoSlots(), RunningAB(), GoneBoth(), SwapThenRemove(), FileC())
  {
    RunningABFacts();
    GoneBothDecides();
    assert Candidates(FileC()) == GoneBoth().ranked;
    assert FileC()[0] in FileC() && InFile(FileC(), "s-C");
  }

  /** A and B left the file, C is new: while slot 1 still runs B, slot 0 already runs C. */
  lemma KeyRunsTwice()
    ensures var f, slots, r := TwoSlots(), RunningAB(), SwapThenRemove();
            && Decided(f, slots, GoneBoth(), r, FileC()) && KeysApart(f, Bases(slots))
            && !KeysApart(f, Held(slots, r.actions, 1))
  {
    var slots, r := RunningAB(), SwapThenRemove();
    RunningABFacts();
    GoneBothDecided();
    assert Held(slots, r.actions, 0) == {"s-A", "s-B"};
    assert Held(slots, r.actions, 1) == {"s-B", "s-C"};
  }

  // ---- filling empty slots

  predicate PortTaken(tuns: seq<Tun>, port: int) {
    exists tn :: tn in tuns && tn.mapping.port == port
  }

  lemma {:induction false} FewPorts(tuns: seq<Tun>, start: int, n: nat)
    requires forall p :: start <= p < start + n ==> PortTaken(tuns, p)
    ensures n <= |tuns|
  {
    var ports := set tn | tn in tuns :: tn.mapping.port;
    FewerPorts(tuns);
    forall p | start <= p < start + n
      ensures p in ports
    {
      assert PortTaken(tuns, p);
    }
    PortSpan(ports, start, n);
  }

  lemma {:induction false} FewerPorts(tuns: seq<Tun>)
    ensures |set tn | tn in tuns :: tn.mapping.port| <= |tuns|
  {
    if tuns != [] {
      var n := |tuns| - 1;
      FewerPorts(tuns[..n]);
      assert tuns == tuns[..n] + [tuns[n]];
      assert (set tn | tn in tuns :: tn.mapping.port) == (set tn | tn in tuns[..n] :: tn.mapping.port) + {tuns[n].mapping.port};
    }
  }

  lemma {:induction false} PortSpan(ports: set<int>, start: int, n: nat)
    requires forall p :: start <= p < start + n ==> p in ports
    ensures n <= |ports|
  {
    if n > 0 {
      PortSpan(ports - {start + n - 1}, start, n - 1);
    }
  }

  /** The lowest free port: with fewer than maxActive tunnels one of the first maxActive ports of
      the range is free. */
  method FreePort(tuns: seq<Tun>, start: int, maxActive: nat) returns (port: int)
    requires |tuns| < maxActive
    ensures start <= port < start + maxActive && !PortTaken(tuns, port)
    ensures forall p :: start <= p < port ==> PortTaken(tuns, p)
  {
    var ports := set tn | tn in tuns :: tn.mapping.port;
    port := start;
    while port in ports
      invariant start <= port <= start + |tuns|
      invariant forall p :: start <= p < port ==> PortTaken(tuns, p)
      decreases start + maxActive - port
    {
      assert forall p :: start <= p < port + 1 ==> PortTaken(tuns, p);
      FewPorts(tuns, start, port + 1 - start);
      port := port + 1;
    }
  }

  /** The keys of the tunnels that are in the file. */
  function KnownKeys(tuns: seq<Tun>, ranked: seq<Entry>): set<Key> {
    set tn | tn in tuns && InFile(ranked, tn.mapping.baseTunnelId) :: EntryOf(ranked, tn.mapping.baseTunnelId).value.candidate.key
  }

  /** The keys of all tunnels, when they are all in the file. */
  lemma KeysKnown(f: Feed, tuns: seq<Tun>, ranked: seq<Entry>)
    requires FileOk(f, ranked) && Keyed(f, tuns, ranked)
    ensures forall tn :: tn in tuns ==> f.keyOf(tn.mapping.baseTunnelId) in KnownKeys(tuns, ranked)
  {
    forall tn | tn in tuns
      ensures EntryOf(ranked, tn.mapping.baseTunnelId).value.candidate.key == f.keyOf(tn.mapping.baseTunnelId)
    {
      assert EntryOf(ranked, tn.mapping.baseTunnelId).value in ranked;
    }
  }

  /** The state of a fill: the file of the sync is that of the tunnels. */
  ghost predicate Filling(c: Client, tg: TargetState.Target, f: Feed, full: nat, a: Server, ranked: seq<Entry>)
    reads c, tg
  {
    && At(c, tg, f, full, a) && FileOk(f, ranked)
    && tg.sources[f.ns.sourceId].hashes != map[]
    && Keyed(f, Block(tg.tunnels, f.ns.sourceId), ranked)
  }

  /** One empty slot is filled with the chosen candidate on the lowest free port. */
  method FillNext(c: Client, tg: TargetState.Target, f: Feed, ghost full: nat, ghost a: Server, e: Entry) returns (err: Error)
    requires At(c, tg, f, full, a) && tg.sources[f.ns.sourceId].hashes != map[]
    requires |Block(tg.tunnels, f.ns.sourceId)| < f.maxActive
    requires HasPrefix(e.candidate.tag, f.ns.Stem()) && e.candidate.tag !in Bases(Block(tg.tunnels, f.ns.sourceId))
    modifies c, tg
    ensures Advanced(c, tg, f) && At(c, tg, f, full, a)
    ensures if err == Nil then tg.sources[f.ns.sourceId].hashes != map[] else tg.sources[f.ns.sourceId].hashes == map[]
    ensures err == Nil ==>
              && |Block(tg.tunnels, f.ns.sourceId)| == |old(Block(tg.tunnels, f.ns.sourceId))| + 1
              && Bases(Block(tg.tunnels, f.ns.sourceId)) == Bases(old(Block(tg.tunnels, f.ns.sourceId))) + {e.candidate.tag}
  {
    ghost var b, tuns := c.x, Block(tg.tunnels, f.ns.sourceId);
    var port := FreePort(Block(tg.tunnels, f.ns.sourceId), f.start, f.maxActive);
    PortsFree(Block(tg.tunnels, f.ns.sourceId), port);
    err := FillSlot(c, tg, f, full, f.ns.sourceId, f.TunnelOf(e, port));
    if err == Nil {
      SwappedCounts(tuns, f.ns.sourceId, "", Some(f.TunnelOf(e, port)), Block(tg.tunnels, f.ns.sourceId));
    }
    SessionStays(c, f, b);
    WithinTransitive(f, c.boot, a, b, c.x);
  }

  lemma PortsFree(tuns: seq<Tun>, port: int)
    requires !PortTaken(tuns, port)
    ensures forall tn :: tn in tuns ==> tn.mapping.port != port
  {
  }

  lemma {:induction false} BasesCount(tuns: seq<Tun>)
    requires DistinctBases(tuns)
    ensures |Bases(tuns)| == |tuns|
  {
    if tuns != [] {
      var n := |tuns| - 1;
      BasesCount(tuns[..n]);
      assert tuns == tuns[..n] + [tuns[n]];
      assert Bases(tuns) == Bases(tuns[..n]) + {tuns[n].mapping.baseTunnelId};
      assert tuns[n].mapping.baseTunnelId !in Bases(tuns[..n]);
    }
  }

  /** There is no candidate that may take a slot. */
  ghost predicate NoneAllowed(tuns: seq<Tun>, ranked: seq<Entry>, quarantine: map<PairKey, Time>, now: Time) {
    forall e :: e in ranked ==> !Allowed(e.candidate, Bases(tuns), KnownKeys(tuns, ranked), quarantine, now)
  }

  /** What fill does next: nothing when the slots are taken or no candidate is allowed. */
  method ChooseNext(f: Feed, tuns: seq<Tun>, ranked: seq<Entry>, quarantine: map<PairKey, Time>, now: Time) returns (e: Option<Entry>)
    requires FileOk(f, ranked) && DistinctBases(tuns)
    ensures e.Some? ==>
              && |tuns| < f.maxActive && e.value in ranked
              && Allowed(e.value.candidate, Bases(tuns), KnownKeys(tuns, ranked), quarantine, now)
    ensures e.None? && |tuns| < f.maxActive ==> NoneAllowed(tuns, ranked, quarantine, now)
  {
    var inUse := set tn | tn in tuns :: tn.mapping.baseTunnelId;
    BasesCount(tuns);
    if |inUse| >= f.maxActive {
      return None;
    }
    var next := Replacement(Candidates(ranked), inUse, KnownKeys(tuns, ranked), quarantine, now);
    if next.None? {
      forall x | x in ranked
        ensures !Allowed(x.candidate, inUse, KnownKeys(tuns, ranked), quarantine, now)
      {
        var k :| 0 <= k < |ranked| && ranked[k] == x;
        assert Candidates(ranked)[k] == x.candidate;
      }
      return None;
    }
    var entry := EntryOfCandidate(ranked, next.value);
    e := Some(entry);
  }

  /** A filled slot runs a key that was not there. */
  lemma FilledIsKeyed(f: Feed, tuns: seq<Tun>, tuns': seq<Tun>, ranked: seq<Entry>, e: Entry, quarantine: map<PairKey, Time>, now: Time)
    requires FileOk(f, ranked) && Keyed(f, tuns, ranked) && e in ranked
    requires Allowed(e.candidate, Bases(tuns), KnownKeys(tuns, ranked), quarantine, now)
    requires Bases(tuns') == Bases(tuns) + {e.candidate.tag}
    ensures Keyed(f, tuns', ranked)
  {
    KeysKnown(f, tuns, ranked);
    forall tn | tn in tuns'
      ensures tn.mapping.baseTunnelId == e.candidate.tag || exists was :: was in tuns && was.mapping.baseTunnelId == tn.mapping.baseTunnelId
    {
      assert tn.mapping.baseTunnelId in Bases(tuns');
    }
  }

  method FillStep(c: Client, tg: TargetState.Target, f: Feed, ghost full: nat, ghost a: Server, ranked: seq<Entry>,
                  quarantine: map<PairKey, Time>, now: Time)
    returns (done: bool, err: Error)
    requires Filling(c, tg, f, full, a, ranked)
    modifies c, tg
    ensures Advanced(c, tg, f) && At(c, tg, f, full, a)
    ensures if err == Nil then Filling(c, tg, f, full, a, ranked) else tg.sources[f.ns.sourceId].hashes == map[]
    ensures err == Nil && !done ==> old(|Block(tg.tunnels, f.ns.sourceId)|) < |Block(tg.tunnels, f.ns.sourceId)| <= f.maxActive
    ensures done ==> err == Nil && tg.tunnels == old(tg.tunnels)
    ensures done && |Block(tg.tunnels, f.ns.sourceId)| < f.maxActive ==>
              NoneAllowed(Block(tg.tunnels, f.ns.sourceId), ranked, quarantine, now)
  {
    BlockIsDistinct(tg, f.ns.sourceId);
    ghost var tuns := Block(tg.tunnels, f.ns.sourceId);
    var e := ChooseNext(f, Block(tg.tunnels, f.ns.sourceId), ranked, quarantine, now);
    if e.None? {
      return true, Nil;
    }
    done := false;
    err := FillNext(c, tg, f, full, a, e.value);
    if err == Nil {
      FilledIsKeyed(f, tuns, Block(tg.tunnels, f.ns.sourceId), ranked, e.value, quarantine, now);
    }
  }

  /** fill: empty slots are filled while a candidate can take them. Without a failure, at the end
      all slots are taken or no candidate outside quarantine is left that has neither its tag nor
      its key in use. */
  method Fill(c: Client, tg: TargetState.Target, f: Feed, ghost full: nat, ghost a: Server, ranked: seq<Entry>,
              quarantine: map<PairKey, Time>, now: Time)
    returns (err: Error)
    requires Filling(c, tg, f, full, a, ranked)
    modifies c, tg
    ensures Advanced(c, tg, f) && At(c, tg, f, full, a)
    ensures if err == Nil then Filling(c, tg, f, full, a, ranked) else tg.sources[f.ns.sourceId].hashes == map[]
    ensures err == Nil && |Block(tg.tunnels, f.ns.sourceId)| < f.maxActive ==>
              NoneAllowed(Block(tg.tunnels, f.ns.sourceId), ranked, quarantine, now)
  {
    var done := false;
    err := Nil;
    while !done
      invariant Advanced(c, tg, f) && Filling(c, tg, f, full, a, ranked) && err == Nil
      invariant done && |Block(tg.tunnels, f.ns.sourceId)| < f.maxActive ==>
                  NoneAllowed(Block(tg.tunnels, f.ns.sourceId), ranked, quarantine, now)
      decreases !done, f.maxActive - |Block(tg.tunnels, f.ns.sourceId)|
    {
      done, err := FillStep(c, tg, f, full, a, ranked, quarantine, now);
      if err != Nil {
        return;
      }
    }
  }
}
