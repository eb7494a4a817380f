/** From the file of a candidate source to the tunnels of a full apply
    (internal/scd/syncer/wireguard.go, full; internal/scd/topology/topology.go, BuildSource). */
module Plans {
  import opened Sets
  import opened Namespaces
  import opened SourceRules
  import opened Sorting
  import opened Selection
  import opened Decide
  import opened Topology
  import opened TargetState
  import opened Slots

  function Candidates(file: seq<Entry>): (r: seq<Candidate>)
    ensures |r| == |file| && forall i :: 0 <= i < |r| ==> r[i] == file[i].candidate
  {
    seq(|file|, i requires 0 <= i < |file| => file[i].candidate)
  }

  /** The entry with the given tag. */
  function EntryOf(file: seq<Entry>, tag: Tag): (r: Option<Entry>)
    ensures r.Some? <==> InFile(file, tag)
    ensures r.Some? ==> r.value in file && r.value.candidate.tag == tag
  {
    if file == [] then None
    else if file[|file| - 1].candidate.tag == tag then Some(file[|file| - 1])
    else EntryOf(file[..|file| - 1], tag)
  }

  lemma EntryIsUnique(file: seq<Entry>, a: Entry, b: Entry)
    requires UniqueTags(file) && a in file && b in file && a.candidate.tag == b.candidate.tag
    ensures a == b
  {
    var i :| 0 <= i < |file| && file[i] == a;
    var j :| 0 <= j < |file| && file[j] == b;
  }

  /** One list is a reordering of the other. */
  ghost predicate SameEntries(file: seq<Entry>, r: seq<Entry>) {
    UniqueTags(r) && |r| == |file| && forall e :: e in r <==> e in file
  }

  /** selection.Rank over entries. */
  method RankEntries(file: seq<Entry>, strategy: Strategy) returns (r: seq<Entry>)
    requires UniqueTags(file)
    ensures SameEntries(file, r) && Ranked(Candidates(file), strategy, Candidates(r))
  {
    var ranked := Rank(Candidates(file), strategy);
    RankedAreCandidates(file, strategy, ranked);
    r := EntriesOf(file, ranked);
    RankedEntries(file, strategy, r);
  }

  lemma RankedAreCandidates(file: seq<Entry>, strategy: Strategy, ranked: seq<Candidate>)
    requires Ranked(Candidates(file), strategy, ranked)
    ensures forall c :: c in ranked ==> c in Candidates(file)
  {
    RankKeepsAll(Candidates(file), strategy, ranked);
    forall c | c in ranked
      ensures c in Candidates(file)
    {
      assert c in multiset(ranked);
    }
  }

  lemma RankedEntries(file: seq<Entry>, strategy: Strategy, r: seq<Entry>)
    requires UniqueTags(file) && Ranked(Candidates(file), strategy, Candidates(r)) && forall e :: e in r ==> e in file
    ensures SameEntries(file, r)
  {
    var order: seq<nat>, out, regroup: seq<nat> :|
      StrategyOrder(Candidates(file), strategy, order, out) && GroupOrder(out, regroup, Candidates(r));
    forall p | 0 <= p < |r|
      ensures r[p] == file[order[regroup[p]]]
    {
      var e := file[order[regroup[p]]];
      assert e in file && r[p] in r && e.candidate == out[regroup[p]] == r[p].candidate;
      EntryIsUnique(file, e, r[p]);
    }
    Rearranged(file, order, regroup, r);
  }

  lemma Rearranged(file: seq<Entry>, order: seq<nat>, regroup: seq<nat>, r: seq<Entry>)
    requires UniqueTags(file) && Permutes(order, |file|) && Permutes(regroup, |file|)
    requires |r| == |file| && forall p :: 0 <= p < |r| ==> r[p] == file[order[regroup[p]]]
    ensures SameEntries(file, r)
  {
    forall e | e in file
      ensures e in r
    {
      var k :| 0 <= k < |file| && file[k] == e;
      assert k in order;
      var m :| 0 <= m < |order| && order[m] == k;
      assert m in regroup;
      var p :| 0 <= p < |regroup| && regroup[p] == m;
      assert r[p] == e;
    }
    forall p, q | 0 <= p < q < |r|
      ensures r[p].candidate.tag != r[q].candidate.tag
    {
      assert regroup[p] != regroup[q];
      var i, j := regroup[p], regroup[q];
      assert order[i] != order[j] by {
        assert i < j ==> order[i] != order[j];
        assert j < i ==> order[j] != order[i];
      }
    }
  }

  // ---- the candidates of a full apply

  /** Outside quarantine. */
  predicate IsEligible(quarantine: map<PairKey, Time>, now: Time, e: Entry) {
    !Quarantined(quarantine, e.candidate, now)
  }

  /** An eligible active tunnel keeps the transport of its key. */
  predicate Keeps(quarantine: map<PairKey, Time>, now: Time, active: set<Tag>, e: Entry) {
    IsEligible(quarantine, now, e) && e.candidate.transport != "" && e.candidate.tag in active
  }

  /** kept are the keys with an eligible active tunnel that has a transport, with such a transport. */
  ghost predicate KeptFrom(file: seq<Entry>, quarantine: map<PairKey, Time>, now: Time, active: set<Tag>, kept: map<Key, string>) {
    && (forall k :: k in kept <==> exists e :: e in file && Keeps(quarantine, now, active, e) && e.candidate.key == k)
    && (forall k :: k in kept ==>
          exists e :: e in file && Keeps(quarantine, now, active, e) && e.candidate.key == k && e.candidate.transport == kept[k])
  }

  /** source is all a full apply may choose from. */
  ghost predicate ChosenFrom(file: seq<Entry>, quarantine: map<PairKey, Time>, now: Time, active: set<Tag>, source: seq<Entry>) {
    && UniqueTags(source)
    && exists kept: map<Key, string> ::
         KeptFrom(file, quarantine, now, active, kept) && forall e :: e in source <==> e in file && Choosable(quarantine, now, kept, e)
  }

  /** picked is Pick of a Rank of source. */
  ghost predicate PickedBy(source: seq<Entry>, strategy: Strategy, maxActive: nat, picked: seq<Entry>) {
    && (forall e :: e in picked ==> e in source)
    && exists ranked ::
         && SameEntries(source, ranked) && Ranked(Candidates(source), strategy, Candidates(ranked))
         && Candidates(picked) == Picked(Candidates(ranked), maxActive)
  }

  /** picked are the best ranked of what a full apply of the file may choose from, one of a key,
      as many as there are slots and keys. */
  ghost predicate BestOf(file: seq<Entry>, strategy: Strategy, quarantine: map<PairKey, Time>, now: Time, active: set<Tag>,
                         maxActive: nat, picked: seq<Entry>) {
    exists source :: ChosenFrom(file, quarantine, now, active, source) && PickedBy(source, strategy, maxActive, picked)
  }

  /** What being the best means: distinct keys outside quarantine, short of maxActive only when
      every key outside quarantine that may be chosen has its tunnel. */
  lemma BestAreMaximal(file: seq<Entry>, strategy: Strategy, quarantine: map<PairKey, Time>, now: Time, active: set<Tag>,
                       maxActive: nat, picked: seq<Entry>)
    requires BestOf(file, strategy, quarantine, now, active, maxActive, picked)
    ensures DistinctKeys(Candidates(picked)) && |picked| <= maxActive
    ensures forall e :: e in picked ==> e in file && IsEligible(quarantine, now, e)
    ensures |picked| < maxActive ==> forall e :: e in file && IsEligible(quarantine, now, e) ==> e.candidate.key in Keys(Candidates(picked))
  {
    var source :| ChosenFrom(file, quarantine, now, active, source) && PickedBy(source, strategy, maxActive, picked);
    var ranked :|
      && SameEntries(source, ranked) && Ranked(Candidates(source), strategy, Candidates(ranked))
      && Candidates(picked) == Picked(Candidates(ranked), maxActive);
    PickIsMaximal(Candidates(ranked), maxActive, Candidates(picked));
    SameKeys(source, ranked);
    forall e | e in file && IsEligible(quarantine, now, e)
      ensures e.candidate.key in Keys(Candidates(source))
    {
      KeyIsChoosable(file, quarantine, now, active, source, e);
    }
  }

  lemma KeyIsChoosable(file: seq<Entry>, quarantine: map<PairKey, Time>, now: Time, active: set<Tag>, source: seq<Entry>, e: Entry)
    requires ChosenFrom(file, quarantine, now, active, source) && e in file && IsEligible(quarantine, now, e)
    ensures e.candidate.key in Keys(Candidates(source))
  {
    var chosen := ChoosableOfKey(file, quarantine, now, active, source, e);
    var k :| 0 <= k < |source| && source[k] == chosen;
    assert Candidates(source)[k] in Candidates(source);
  }

  /** Of every key outside quarantine some entry may be chosen. */
  lemma ChoosableOfKey(file: seq<Entry>, quarantine: map<PairKey, Time>, now: Time, active: set<Tag>, source: seq<Entry>, e: Entry)
    returns (chosen: Entry)
    requires ChosenFrom(file, quarantine, now, active, source) && e in file && IsEligible(quarantine, now, e)
    ensures chosen in source && chosen.candidate.key == e.candidate.key
  {
    var kept: map<Key, string> :|
      KeptFrom(file, quarantine, now, active, kept) && forall e :: e in source <==> e in file && Choosable(quarantine, now, kept, e);
    if e.candidate.key in kept {
      chosen :| chosen in file && Keeps(quarantine, now, active, chosen) && chosen.candidate.key == e.candidate.key &&
                chosen.candidate.transport == kept[e.candidate.key];
    } else {
      chosen := e;
    }
  }

  /** The entries of the file a full apply chooses from: those outside quarantine, and of a key
      whose transport is kept only that transport (the last one kept). */
  method Eligible(file: seq<Entry>, quarantine: map<PairKey, Time>, now: Time, active: set<Tag>)
    returns (r: seq<Entry>, kept: map<Key, string>)
    requires UniqueTags(file)
    ensures UniqueTags(r) && KeptFrom(file, quarantine, now, active, kept)
    ensures forall e :: e in r <==> e in file && Choosable(quarantine, now, kept, e)
  {
    kept := KeptTransports(file, quarantine, now, active);
    r := Filtered(file, quarantine, now, kept);
  }

  /** The transports of the keys whose eligible active tunnel has one. */
  method KeptTransports(file: seq<Entry>, quarantine: map<PairKey, Time>, now: Time, active: set<Tag>) returns (kept: map<Key, string>)
    ensures KeptFrom(file, quarantine, now, active, kept)
  {
    kept := map[];
    for i := 0 to |file|
      invariant forall k :: k in kept ==>
                  exists e :: e in file && Keeps(quarantine, now, active, e) && e.candidate.key == k && e.candidate.transport == kept[k]
      invariant forall j :: 0 <= j < i && Keeps(quarantine, now, active, file[j]) ==> file[j].candidate.key in kept
    {
      var c := file[i].candidate;
      if !Quarantined(quarantine, c, now) && c.transport != "" && c.tag in active {
        assert Keeps(quarantine, now, active, file[i]);
        kept := kept[c.key := c.transport];
      }
    }
  }

  /** What is left to choose from. */
  predicate Choosable(quarantine: map<PairKey, Time>, now: Time, kept: map<Key, string>, e: Entry) {
    IsEligible(quarantine, now, e) && (e.candidate.key in kept ==> e.candidate.transport == kept[e.candidate.key])
  }

  method Filtered(file: seq<Entry>, quarantine: map<PairKey, Time>, now: Time, kept: map<Key, string>) returns (r: seq<Entry>)
    requires UniqueTags(file)
    ensures UniqueTags(r) && forall e :: e in r <==> e in file && Choosable(quarantine, now, kept, e)
  {
    r := [];
    for i := 0 to |file|
      invariant UniqueTags(r)
      invariant forall e :: e in r ==> e in file[..i]
      invariant forall j :: 0 <= j < i ==> (file[j] in r <==> Choosable(quarantine, now, kept, file[j]))
    {
      NotBefore(file, i, r);
      if Choosable(quarantine, now, kept, file[i]) {
        r := r + [file[i]];
      }
    }
  }

  lemma NotBefore(file: seq<Entry>, i: nat, r: seq<Entry>)
    requires UniqueTags(file) && i < |file| && forall e :: e in r ==> e in file[..i]
    ensures forall e :: e in r ==> e.candidate.tag != file[i].candidate.tag
    ensures forall e :: e in r ==> e in file[..i + 1]
  {
    forall e | e in r
      ensures e.candidate.tag != file[i].candidate.tag && e in file[..i + 1]
    {
      var j :| 0 <= j < i && file[..i][j] == e;
      assert file[..i + 1][j] == e;
    }
  }

  // ---- the tunnels

  /** What the tunnels of a full apply are: slot i runs an entry of the file on port start + i;
      no tag and no key is there twice. */
  ghost predicate Slotted(f: Feed, file: seq<Entry>, topo: seq<Tunnel>) {
    && |topo| <= f.maxActive
    && (forall i :: 0 <= i < |topo| ==>
          topo[i].port == f.start + i &&
          exists e :: e in file && topo[i] == f.TunnelOf(e, f.start + i))
    && (forall i, j :: 0 <= i < j < |topo| ==> f.keyOf(topo[i].baseTunnelId) != f.keyOf(topo[j].baseTunnelId))
  }

  /** The first candidate of every key, as many as fit. */
  function Picked(ranked: seq<Candidate>, maxActive: nat): seq<Candidate> {
    var all := FirstOfKeys(ranked);
    all[..if |all| < maxActive then |all| else maxActive]
  }

  /** Pick of Rank: as many entries as there are slots and keys, each of another key, the best
      ranked of its key. */
  method PickEntries(file: seq<Entry>, strategy: Strategy, maxActive: nat) returns (r: seq<Entry>, ghost ranked: seq<Entry>)
    requires UniqueTags(file)
    ensures SameEntries(file, ranked) && Ranked(Candidates(file), strategy, Candidates(ranked))
    ensures Candidates(r) == Picked(Candidates(ranked), maxActive)
    ensures forall e :: e in r ==> e in file
    ensures DistinctKeys(Candidates(r)) && |r| <= maxActive
    ensures |r| < maxActive ==> Keys(Candidates(r)) == Keys(Candidates(file))
  {
    var rank := RankEntries(file, strategy);
    ranked := rank;
    var cands := Pick(Candidates(rank), maxActive);
    PickIsMaximal(Candidates(rank), maxActive, cands);
    SameKeys(file, rank);
    r := EntriesOf(rank, cands);
  }

  method EntriesOf(file: seq<Entry>, cands: seq<Candidate>) returns (r: seq<Entry>)
    requires UniqueTags(file) && forall c :: c in cands ==> c in Candidates(file)
    ensures Candidates(r) == cands && forall e :: e in r ==> e in file
  {
    r := [];
    for i := 0 to |cands|
      invariant |r| == i && forall j :: 0 <= j < i ==> r[j] in file && r[j].candidate == cands[j]
    {
      var e := EntryOfCandidate(file, cands[i]);
      r := r + [e];
    }
    assert Candidates(r) == cands;
  }

  method EntryOfCandidate(file: seq<Entry>, c: Candidate) returns (e: Entry)
    requires UniqueTags(file) && c in Candidates(file)
    ensures e in file && e.candidate == c
  {
    ghost var k :| 0 <= k < |file| && file[k].candidate == c;
    assert file[k] in file;
    var found := EntryOf(file, c.tag);
    EntryIsUnique(file, file[k], found.value);
    e := found.value;
  }

  /** BuildSource of a candidate source: the picked candidates in rank order. */
  method BuildTopology(f: Feed, file: seq<Entry>, strategy: Strategy) returns (topo: seq<Tunnel>, ghost picked: seq<Entry>)
    requires FileOk(f, file)
    ensures Slotted(f, file, topo)
    ensures |topo| == |picked| && forall i :: 0 <= i < |topo| ==> topo[i] == f.TunnelOf(picked[i], f.start + i)
    ensures PickedBy(file, strategy, f.maxActive, picked)
  {
    var entries;
    ghost var ranked;
    entries, ranked := PickEntries(file, strategy, f.maxActive);
    picked := entries;
    topo := AllotPorts(f, entries);
    SlotsAreSlotted(f, file, entries, topo);
  }

  /** Slot i of the range goes to entry i. */
  method AllotPorts(f: Feed, entries: seq<Entry>) returns (topo: seq<Tunnel>)
    ensures |topo| == |entries| && forall i :: 0 <= i < |topo| ==> topo[i] == f.TunnelOf(entries[i], f.start + i)
  {
    topo := [];
    for i := 0 to |entries|
      invariant |topo| == i
      invariant forall j :: 0 <= j < i ==> topo[j] == f.TunnelOf(entries[j], f.start + j)
    {
      topo := topo + [f.TunnelOf(entries[i], f.start + i)];
    }
  }

  lemma SameKeys(file: seq<Entry>, r: seq<Entry>)
    requires SameEntries(file, r)
    ensures Keys(Candidates(r)) == Keys(Candidates(file))
  {
    KeysWithin(file, r);
    KeysWithin(r, file);
  }

  lemma KeysWithin(file: seq<Entry>, r: seq<Entry>)
    requires forall e :: e in file ==> e in r
    ensures Keys(Candidates(file)) <= Keys(Candidates(r))
  {
    forall c | c in Candidates(file)
      ensures c in Candidates(r)
    {
      var k :| 0 <= k < |file| && file[k].candidate == c;
      assert file[k] in r;
      var m :| 0 <= m < |r| && r[m] == file[k];
      assert Candidates(r)[m] == c;
    }
  }

  lemma SlotsAreSlotted(f: Feed, file: seq<Entry>, picked: seq<Entry>, topo: seq<Tunnel>)
    requires FileOk(f, file) && DistinctKeys(Candidates(picked)) && |picked| == |topo| <= f.maxActive
    requires forall e :: e in picked ==> e in file
    requires forall i :: 0 <= i < |topo| ==> topo[i] == f.TunnelOf(picked[i], f.start + i)
    ensures Slotted(f, file, topo)
  {
    forall i | 0 <= i < |topo|
      ensures picked[i] in file && topo[i].baseTunnelId == picked[i].candidate.tag
      ensures f.keyOf(picked[i].candidate.tag) == picked[i].candidate.key
    {
      assert picked[i] in picked;
    }
    forall i, j | 0 <= i < j < |topo|
      ensures f.keyOf(topo[i].baseTunnelId) != f.keyOf(topo[j].baseTunnelId)
    {
      assert Candidates(picked)[i].key != Candidates(picked)[j].key;
    }
  }

  /** Tunnels of different keys have different ids. */
  lemma SlottedIds(f: Feed, file: seq<Entry>, topo: seq<Tunnel>)
    requires Slotted(f, file, topo)
    ensures NoRepeats(TunnelIds(topo))
  {
    forall i, j | 0 <= i < j < |topo|
      ensures TunnelIds(topo)[i] != TunnelIds(topo)[j]
    {
      assert f.keyOf(topo[i].baseTunnelId) != f.keyOf(topo[j].baseTunnelId);
    }
  }
}
