/** What a sync does with the active tunnels of a source (internal/scd/selection/decide.go):
    keep, replace or remove each; with quarantine and hysteresis. */
module Decide {
  import opened Namespaces
  import opened SourceRules
  import opened Selection

  /** Nanoseconds since an arbitrary start. */
  type Time = int

  const MINUTE: int := 60_000_000_000

  /** A key on one server and transport: the quarantine unit. */
  datatype PairKey = PairKey(key: Key, endpoint: string, transport: string)

  function PairOf(c: Candidate): PairKey {
    PairKey(c.key, c.endpoint, c.transport)
  }

  datatype Config = Config(
    strategy: Strategy,
    switchMarginPercent: int,
    switchConfirmChecks: int,
    deadPairCooldownMinutes: int,
    replaceAfterFailures: int)

  datatype Reason = Gone | Changed | Failed | Better | Vacant

  datatype Action =
    | Keep
    | Replace(to: Candidate, reason: Reason)
    | Remove(reason: Reason)

  datatype Slot = Slot(candidate: Candidate, healthy: bool)

  /** A candidate that was found better than an active one in some Decide. */
  datatype Win = Win(active: Candidate, candidate: Candidate)

  // ---- choosing

  predicate Quarantined(quarantine: map<PairKey, Time>, c: Candidate, now: Time) {
    PairOf(c) in quarantine && now < quarantine[PairOf(c)]
  }

  predicate Allowed(c: Candidate, active: set<Tag>, keys: set<Key>, quarantine: map<PairKey, Time>, now: Time) {
    c.tag !in active && c.key !in keys && !Quarantined(quarantine, c, now)
  }

  /** Replacement: the first of ranked that may take a slot. */
  function Replacement(ranked: seq<Candidate>, active: set<Tag>, keys: set<Key>, quarantine: map<PairKey, Time>, now: Time): (r: Option<Candidate>)
    ensures r.Some? ==> exists i :: 0 <= i < |ranked| && ranked[i] == r.value && Allowed(r.value, active, keys, quarantine, now) &&
                                    forall j :: 0 <= j < i ==> !Allowed(ranked[j], active, keys, quarantine, now)
    ensures r.None? ==> forall i :: 0 <= i < |ranked| ==> !Allowed(ranked[i], active, keys, quarantine, now)
  {
    if ranked == [] then None
    else if Allowed(ranked[0], active, keys, quarantine, now) then Some(ranked[0])
    else
      var r := Replacement(ranked[1..], active, keys, quarantine, now);
      assert forall i :: 0 < i < |ranked| ==> ranked[i] == ranked[1..][i - 1];
      assert r.Some? ==> forall i :: 0 <= i < |ranked[1..]| ==> ranked[1..][i] == ranked[i + 1];
      r
  }

  function LowerByMargin(mc: real, ma: real, margin: int): bool {
    mc < ma && mc * 100.0 <= ma * (100 - margin) as real
  }

  /** beats: the metric of c is lower than that of a by at least the margin; the metric is the
      strategy's, or the other one when either candidate lacks it. */
  predicate Beats(c: Candidate, a: Candidate, cfg: Config) {
    var (m, n) := if cfg.strategy == ByLoad then ((LoadOf(c), LoadOf(a)), (c.score, a.score))
                  else ((c.score, a.score), (LoadOf(c), LoadOf(a)));
    if m.0.Some? && m.1.Some? then LowerByMargin(m.0.value, m.1.value, cfg.switchMarginPercent)
    else n.0.Some? && n.1.Some? && LowerByMargin(n.0.value, n.1.value, cfg.switchMarginPercent)
  }

  /** Which candidates may compete for the slot of cur. */
  predicate Competes(c: Candidate, cur: Candidate, inUse: set<Tag>, keys: set<Key>, quarantine: map<PairKey, Time>, now: Time) {
    c.tag !in inUse && c.key !in keys && (c.key == cur.key ==> c.transport == cur.transport) && !Quarantined(quarantine, c, now)
  }

  /** A competitor of a key with a transport that is not the first of its key. */
  predicate Shadowed(ranked: seq<Candidate>, i: nat, cur: Candidate, inUse: set<Tag>, keys: set<Key>, quarantine: map<PairKey, Time>, now: Time)
    requires i < |ranked|
  {
    ranked[i].transport != "" &&
    exists j :: 0 <= j < i && ranked[j].key == ranked[i].key && Competes(ranked[j], cur, inUse, keys, quarantine, now)
  }

  predicate Challenges(ranked: seq<Candidate>, i: nat, cur: Candidate, inUse: set<Tag>, keys: set<Key>, quarantine: map<PairKey, Time>, now: Time, cfg: Config)
    requires i < |ranked|
  {
    && Competes(ranked[i], cur, inUse, keys, quarantine, now)
    && !Shadowed(ranked, i, cur, inUse, keys, quarantine, now)
    && Beats(ranked[i], cur, cfg)
  }

  /** The inner loop of Decide: the first challenger of cur. */
  method FindBetter(ranked: seq<Candidate>, cur: Candidate, inUse: set<Tag>, keys: set<Key>, quarantine: map<PairKey, Time>, now: Time, cfg: Config)
    returns (r: Option<Candidate>)
    ensures r.Some? ==> exists i :: 0 <= i < |ranked| && ranked[i] == r.value &&
                                    Challenges(ranked, i, cur, inUse, keys, quarantine, now, cfg) &&
                                    forall j :: 0 <= j < i ==> !Challenges(ranked, j, cur, inUse, keys, quarantine, now, cfg)
    ensures r.None? ==> forall i :: 0 <= i < |ranked| ==> !Challenges(ranked, i, cur, inUse, keys, quarantine, now, cfg)
  {
    var seen: set<Key> := {};
    for i := 0 to |ranked|
      invariant seen == set j | 0 <= j < i && Competes(ranked[j], cur, inUse, keys, quarantine, now) :: ranked[j].key
      invariant forall j :: 0 <= j < i ==> !Challenges(ranked, j, cur, inUse, keys, quarantine, now, cfg)
    {
      var c := ranked[i];
      if c.tag in inUse || c.key in keys || (c.key == cur.key && c.transport != cur.transport) || Quarantined(quarantine, c, now) {
        continue;
      }
      if c.transport != "" && c.key in seen {
        continue;
      }
      seen := seen + {c.key};
      if Beats(c, cur, cfg) {
        return Some(c);
      }
    }
    return None;
  }

  // ---- assignments

  predicate DistinctTags(cs: seq<Candidate>) {
    forall i, j :: 0 <= i < j < |cs| ==> cs[i].tag != cs[j].tag
  }

  /** byTag. */
  function ByTag(ranked: seq<Candidate>, tag: Tag): (r: Option<Candidate>)
    ensures r.Some? ==> r.value in ranked && r.value.tag == tag
    ensures r.None? ==> forall c :: c in ranked ==> c.tag != tag
  {
    if ranked == [] then None
    else if ranked[|ranked| - 1].tag == tag then Some(ranked[|ranked| - 1])
    else ByTag(ranked[..|ranked| - 1], tag)
  }

  /** The candidates slots end up with; None for an empty slot. */
  type Assignment = seq<Option<Candidate>>

  function TagsIn(fin: Assignment): set<Tag> {
    set i | 0 <= i < |fin| && fin[i].Some? :: fin[i].value.tag
  }

  function KeysIn(fin: Assignment): set<Key> {
    set i | 0 <= i < |fin| && fin[i].Some? :: fin[i].value.key
  }

  /** No tag and no key is used twice. */
  predicate Exclusive(fin: Assignment) {
    forall i, j :: 0 <= i < j < |fin| && fin[i].Some? && fin[j].Some? ==>
      fin[i].value.tag != fin[j].value.tag && fin[i].value.key != fin[j].value.key
  }

  /** What each slot holds before any decision: its candidate if the file still has it. */
  function Present(active: seq<Slot>, ranked: seq<Candidate>): Assignment {
    seq(|active|, i requires 0 <= i < |active| => ByTag(ranked, active[i].candidate.tag))
  }

  /** What each slot holds after the actions. */
  function Final(active: seq<Slot>, ranked: seq<Candidate>, actions: seq<Action>): Assignment
    requires |actions| == |active|
  {
    seq(|active|, i requires 0 <= i < |active| =>
      match actions[i]
      case Keep => ByTag(ranked, active[i].candidate.tag)
      case Replace(to, _) => Some(to)
      case Remove(_) => None)
  }

  function ActiveTags(active: seq<Slot>): set<Tag> {
    set i | 0 <= i < |active| :: active[i].candidate.tag
  }

  lemma Reassign(fin: Assignment, i: nat, c: Candidate)
    requires i < |fin| && Exclusive(fin)
    requires forall j :: 0 <= j < |fin| && j != i && fin[j].Some? ==> fin[j].value.tag != c.tag && fin[j].value.key != c.key
    ensures Exclusive(fin[i := Some(c)])
    ensures TagsIn(fin[i := Some(c)]) <= TagsIn(fin) + {c.tag}
    ensures KeysIn(fin[i := Some(c)]) == KeysIn(fin[i := None]) + {c.key}
  {
    var f := fin[i := Some(c)];
    assert KeysIn(f) == KeysIn(fin[i := None]) + {c.key} by {
      forall k | k in KeysIn(f)
        ensures k in KeysIn(fin[i := None]) + {c.key}
      {
        var j :| 0 <= j < |f| && f[j].Some? && f[j].value.key == k;
        assert j != i ==> fin[i := None][j] == f[j];
      }
      forall k | k in KeysIn(fin[i := None])
        ensures k in KeysIn(f)
      {
        var j :| 0 <= j < |f| && fin[i := None][j].Some? && fin[i := None][j].value.key == k;
        assert f[j] == fin[j];
      }
      assert f[i] == Some(c);
    }
  }

  lemma Vacate(fin: Assignment, i: nat)
    requires i < |fin| && fin[i].Some? && Exclusive(fin)
    ensures KeysIn(fin[i := None]) == KeysIn(fin) - {fin[i].value.key}
    ensures Exclusive(fin[i := None])
  {
    var f := fin[i := None];
    forall k | k in KeysIn(fin) && k != fin[i].value.key
      ensures k in KeysIn(f)
    {
      var j :| 0 <= j < |fin| && fin[j].Some? && fin[j].value.key == k;
      assert f[j] == fin[j];
    }
    forall k | k in KeysIn(f)
      ensures k in KeysIn(fin) && k != fin[i].value.key
    {
      var j :| 0 <= j < |f| && f[j].Some? && f[j].value.key == k;
      assert f[j] == fin[j];
    }
  }

  // ---- the decision, step by step

  /** The actives that are still in the file have its key. */
  predicate KeysMatch(active: seq<Slot>, ranked: seq<Candidate>) {
    forall i :: 0 <= i < |active| && ByTag(ranked, active[i].candidate.tag).Some? ==>
      ByTag(ranked, active[i].candidate.tag).value.key == active[i].candidate.key
  }

  predicate PairLeft(ranked: seq<Candidate>, a: Candidate) {
    exists c :: c in ranked && PairOf(c) == PairOf(a)
  }

  /** What a Decide decides from. */
  datatype Input = Input(active: seq<Slot>, ranked: seq<Candidate>, quarantine: map<PairKey, Time>,
                         better: map<(Tag, Tag), nat>, now: Time, cfg: Config)
  {
    predicate Valid() {
      && DistinctTags(ranked) && KeysMatch(active, ranked)
      && Exclusive(Present(active, ranked))
      && cfg.switchConfirmChecks >= 1
    }

    function Live(): map<PairKey, Time> {
      map p | p in quarantine && now < quarantine[p] :: quarantine[p]
    }

    function InUse(fin: Assignment): set<Tag> {
      ActiveTags(active) + TagsIn(fin)
    }

    /** Slot i in the first pass: a candidate gone from the file is replaced by the first allowed
        one, else removed. */
    ghost predicate RefillStep(i: nat, fin: Assignment, action: Action, fin': Assignment)
      requires i < |active| == |fin|
    {
      var a := active[i].candidate;
      var next := Replacement(ranked, InUse(fin), KeysIn(fin), Live(), now);
      var reason := if PairLeft(ranked, a) then Changed else Gone;
      if ByTag(ranked, a.tag).Some? then action == Keep && fin' == fin
      else if next.Some? then action == Replace(next.value, reason) && fin' == fin[i := next]
      else action == Remove(reason) && fin' == fin
    }

    /** r is the first challenger of slot i, whose candidate is cur. */
    ghost predicate FirstChallenger(i: nat, fin: Assignment, cur: Candidate, r: Option<Candidate>)
      requires i < |fin|
    {
      var keys := KeysIn(fin[i := None]);
      match r
      case Some(c) =>
        exists k :: 0 <= k < |ranked| && ranked[k] == c &&
                    Challenges(ranked, k, cur, InUse(fin), keys, Live(), now, cfg) &&
                    forall j :: 0 <= j < k ==> !Challenges(ranked, j, cur, InUse(fin), keys, Live(), now, cfg)
      case None =>
        forall k :: 0 <= k < |ranked| ==> !Challenges(ranked, k, cur, InUse(fin), keys, Live(), now, cfg)
    }

    function Series(k: (Tag, Tag)): nat {
      1 + if k in better then better[k] else 0
    }

    /** Slot i in the second pass: a healthy kept candidate is switched for its first challenger
        once that was found in switchConfirmChecks decisions in a row. */
    ghost predicate SwitchStep(i: nat, fin: Assignment, count: map<(Tag, Tag), nat>, first: Action,
                               challenger: Option<Candidate>, action: Action, fin': Assignment, count': map<(Tag, Tag), nat>)
      requires i < |active| == |fin|
    {
      if first != Keep || !active[i].healthy || cfg.strategy == ByLabel then
        challenger == None && action == first && fin' == fin && count' == count
      else
        && fin[i].Some? && FirstChallenger(i, fin, fin[i].value, challenger)
        && match challenger
           case None => action == Keep && fin' == fin && count' == count
           case Some(c) =>
             var k := (fin[i].value.tag, c.tag);
             if Series(k) >= cfg.switchConfirmChecks then
               action == Replace(c, Better) && fin' == fin[i := Some(c)] && count' == count - {k}
             else
               action == Keep && fin' == fin && count' == count[k := Series(k)]
    }
  }

  /** A whole decision: the two passes, with the assignments in between. */
  datatype Run = Run(
    firsts: seq<Action>, refill: seq<Assignment>,
    actions: seq<Action>, switch: seq<Assignment>,
    challengers: seq<Option<Candidate>>, counts: seq<map<(Tag, Tag), nat>>)

  ghost predicate FirstPass(x: Input, n: nat, firsts: seq<Action>, refill: seq<Assignment>)
    requires n <= |x.active|
  {
    && |firsts| == n && |refill| == n + 1 && refill[0] == Present(x.active, x.ranked)
    && (forall i :: 0 <= i <= n ==> |refill[i]| == |x.active|)
    && forall i :: 0 <= i < n ==> x.RefillStep(i, refill[i], firsts[i], refill[i + 1])
  }

  ghost predicate SecondPass(x: Input, n: nat, r: Run)
    requires n <= |x.active|
  {
    && |r.firsts| == |x.active| && |r.refill| == |x.active| + 1
    && |r.actions| == |r.challengers| == n && |r.switch| == |r.counts| == n + 1
    && r.switch[0] == r.refill[|x.active|] && r.counts[0] == map[]
    && (forall i :: 0 <= i <= n ==> |r.switch[i]| == |x.active|)
    && forall i :: 0 <= i < n ==>
         x.SwitchStep(i, r.switch[i], r.counts[i], r.firsts[i], r.challengers[i], r.actions[i], r.switch[i + 1], r.counts[i + 1])
  }

  ghost predicate Decides(x: Input, r: Run) {
    FirstPass(x, |x.active|, r.firsts, r.refill) && SecondPass(x, |x.active|, r)
  }

  // ---- what every decision guarantees

  /** c is in the file, not active and not in quarantine. */
  predicate IsNew(x: Input, c: Candidate) {
    c in x.ranked && c.tag !in ActiveTags(x.active) && !Quarantined(x.quarantine, c, x.now)
  }

  predicate SoundAction(x: Input, i: nat, action: Action)
    requires i < |x.active|
  {
    var present := ByTag(x.ranked, x.active[i].candidate.tag).Some?;
    var reason := if PairLeft(x.ranked, x.active[i].candidate) then Changed else Gone;
    match action
    case Keep => present
    case Replace(c, Better) => Challenged(x, i, c)
    case Replace(c, why) => !present && IsNew(x, c) && why == reason
    case Remove(why) => !present && why == reason
  }

  lemma {:induction false} FirstPassAssigns(x: Input, n: nat, firsts: seq<Action>, refill: seq<Assignment>)
    requires x.Valid() && n <= |x.active| && FirstPass(x, n, firsts, refill)
    ensures Exclusive(refill[n])
    ensures forall i :: 0 <= i < |x.active| ==>
              refill[n][i] == if i < n && firsts[i].Replace? then Some(firsts[i].to) else Present(x.active, x.ranked)[i]
    ensures forall i :: 0 <= i < n && firsts[i].Replace? ==> IsNew(x, firsts[i].to)
  {
    if n > 0 {
      var i := n - 1;
      FirstPassAssigns(x, i, firsts[..i], refill[..n]);
      assert x.RefillStep(i, refill[i], firsts[i], refill[n]);
      if firsts[i].Replace? {
        AllowedIsNew(refill[i], firsts[i].to);
        Reassign(refill[i], i, firsts[i].to);
      }
    }
  }

  lemma AllowedIsNew(fin: Assignment, c: Candidate)
    requires c.tag !in TagsIn(fin) && c.key !in KeysIn(fin)
    ensures forall j :: 0 <= j < |fin| && fin[j].Some? ==> fin[j].value.tag != c.tag && fin[j].value.key != c.key
  {
    forall j | 0 <= j < |fin| && fin[j].Some?
      ensures fin[j].value.tag != c.tag && fin[j].value.key != c.key
    {
      assert fin[j].value.tag in TagsIn(fin) && fin[j].value.key in KeysIn(fin);
    }
  }

  lemma {:induction false} SecondPassAssigns(x: Input, n: nat, r: Run)
    requires x.Valid() && n <= |x.active|
    requires FirstPass(x, |x.active|, r.firsts, r.refill) && SecondPass(x, n, r)
    ensures Exclusive(r.switch[n])
    ensures forall i :: 0 <= i < |x.active| ==>
              r.switch[n][i] == if i < n && r.actions[i] != r.firsts[i] then r.challengers[i] else r.switch[0][i]
    ensures forall i :: 0 <= i < n && r.actions[i] != r.firsts[i] ==>
              && r.firsts[i] == Keep && x.active[i].healthy && r.challengers[i].Some?
              && r.actions[i] == Replace(r.challengers[i].value, Better)
              && Challenged(x, i, r.challengers[i].value)
              && x.Series((x.active[i].candidate.tag, r.challengers[i].value.tag)) >= x.cfg.switchConfirmChecks
    ensures forall i :: 0 <= i < n && r.challengers[i].Some? ==> Challenged(x, i, r.challengers[i].value)
  {
    FirstPassAssigns(x, |x.active|, r.firsts, r.refill);
    if n > 0 {
      var i := n - 1;
      SecondPassAssigns(x, i, r.(actions := r.actions[..i], switch := r.switch[..n], challengers := r.challengers[..i], counts := r.counts[..n]));
      assert x.SwitchStep(i, r.switch[i], r.counts[i], r.firsts[i], r.challengers[i], r.actions[i], r.switch[n], r.counts[n]);
      assert r.firsts[i] == Keep ==> r.switch[i][i] == Present(x.active, x.ranked)[i] by {
        assert x.RefillStep(i, r.refill[i], r.firsts[i], r.refill[n]);
      }
      if r.challengers[i].Some? {
        var c := r.challengers[i].value;
        Vacate(r.switch[i], i);
        assert r.switch[i][i := None][i := Some(c)] == r.switch[i][i := Some(c)];
        TagsWithout(r.switch[i], i);
        AllowedIsNew(r.switch[i][i := None], c);
        Reassign(r.switch[i][i := None], i, c);
      }
    }
  }

  lemma TagsWithout(fin: Assignment, i: nat)
    requires i < |fin|
    ensures TagsIn(fin[i := None]) <= TagsIn(fin)
  {
    forall t | t in TagsIn(fin[i := None])
      ensures t in TagsIn(fin)
    {
      var j :| 0 <= j < |fin| && fin[i := None][j].Some? && fin[i := None][j].value.tag == t;
      assert fin[j] == fin[i := None][j];
    }
  }

  /** c was found better than the kept candidate of slot i: it is a candidate of the file that is
      neither active nor in quarantine, its metric is lower by the margin, and it is not another
      transport of the same key. */
  predicate Challenged(x: Input, i: nat, c: Candidate)
    requires i < |x.active|
  {
    var cur := ByTag(x.ranked, x.active[i].candidate.tag);
    && cur.Some? && x.active[i].healthy
    && IsNew(x, c)
    && Beats(c, cur.value, x.cfg)
    && (c.key == cur.value.key ==> c.transport == cur.value.transport)
  }

  /** The outcome of a decision: what the slots hold has pairwise distinct tags and keys; only
      candidates of the file that were neither active nor in quarantine take a slot; a candidate
      is kept only while the file has it. */
  lemma DecisionIsSound(x: Input, r: Run)
    requires x.Valid() && Decides(x, r)
    ensures |r.actions| == |x.active|
    ensures Exclusive(Final(x.active, x.ranked, r.actions))
    ensures forall i :: 0 <= i < |x.active| ==>
              SoundAction(x, i, r.actions[i])
  {
    var n := |x.active|;
    FirstPassAssigns(x, n, r.firsts, r.refill);
    SecondPassAssigns(x, n, r);
    forall i | 0 <= i < n
      ensures r.switch[n][i] == Final(x.active, x.ranked, r.actions)[i]
    {
      assert x.RefillStep(i, r.refill[i], r.firsts[i], r.refill[i + 1]);
    }
    assert r.switch[n] == Final(x.active, x.ranked, r.actions);
    forall i | 0 <= i < n
      ensures SoundAction(x, i, r.actions[i])
    {
      assert x.RefillStep(i, r.refill[i], r.firsts[i], r.refill[i + 1]);
    }
  }

  /** A slot is removed only when every candidate outside quarantine has a tag or a key in use:
      active before, or given out by this decision's first pass. */
  lemma RemovedOnlyWithoutChoice(x: Input, r: Run, i: nat, c: Candidate)
    requires x.Valid() && Decides(x, r) && i < |x.active| && r.actions[i].Remove?
    requires c in x.ranked && !Quarantined(x.quarantine, c, x.now)
    ensures c.tag in ActiveTags(x.active) + TagsIn(r.refill[i]) || c.key in KeysIn(r.refill[i])
  {
    SecondPassAssigns(x, |x.active|, r);
    assert r.actions[i] == r.firsts[i];
    assert x.RefillStep(i, r.refill[i], r.firsts[i], r.refill[i + 1]);
    var k :| 0 <= k < |x.ranked| && x.ranked[k] == c;
    assert !Allowed(x.ranked[k], x.InUse(r.refill[i]), KeysIn(r.refill[i]), x.Live(), x.now);
  }

  // ---- hysteresis

  /** The pairs a decision found better, with the candidates as the file then had them. */
  function WinsOf(x: Input, r: Run): set<Win>
    requires |r.challengers| == |x.active|
  {
    set i | 0 <= i < |x.active| && r.challengers[i].Some? && ByTag(x.ranked, x.active[i].candidate.tag).Some? ::
      Win(ByTag(x.ranked, x.active[i].candidate.tag).value, r.challengers[i].value)
  }

  predicate Won(ws: set<Win>, k: (Tag, Tag)) {
    exists w :: w in ws && (w.active.tag, w.candidate.tag) == k
  }

  /** The pair k was found better in each of the last n decisions. */
  ghost predicate Streak(wins: seq<set<Win>>, k: (Tag, Tag), n: nat) {
    n <= |wins| && forall m :: |wins| - n <= m < |wins| ==> Won(wins[m], k)
  }

  /** The history after decision r about x. */
  ghost predicate DecidedNext(x: Input, r: Run, wins: seq<set<Win>>, wins': seq<set<Win>>) {
    x.Valid() && Decides(x, r) && wins' == wins + [WinsOf(x, r)]
  }

  /** Every better switch of r is confirmed by the history that ends with it. */
  ghost predicate SwitchesConfirmed(x: Input, r: Run, wins': seq<set<Win>>)
    requires x.cfg.switchConfirmChecks >= 1
  {
    forall i :: 0 <= i < |x.active| && i < |r.actions| && r.actions[i].Replace? && r.actions[i].reason == Better ==>
      Streak(wins', (x.active[i].candidate.tag, r.actions[i].to.tag), x.cfg.switchConfirmChecks)
  }

  /** The series counted after a decision are those of this decision's wins, one longer. */
  lemma {:induction false} CountsAreWins(x: Input, n: nat, r: Run, k: (Tag, Tag))
    requires x.Valid() && n <= |x.active|
    requires FirstPass(x, |x.active|, r.firsts, r.refill) && SecondPass(x, n, r)
    requires k in r.counts[n]
    ensures r.counts[n][k] == x.Series(k) < x.cfg.switchConfirmChecks
    ensures exists i :: 0 <= i < n && r.challengers[i].Some? && k == (x.active[i].candidate.tag, r.challengers[i].value.tag)
  {
    if n > 0 {
      var i := n - 1;
      var r' := r.(actions := r.actions[..i], switch := r.switch[..n], challengers := r.challengers[..i], counts := r.counts[..n]);
      assert x.SwitchStep(i, r.switch[i], r.counts[i], r.firsts[i], r.challengers[i], r.actions[i], r.switch[n], r.counts[n]);
      SecondPassAssigns(x, i, r');
      FirstPassAssigns(x, |x.active|, r.firsts, r.refill);
      assert x.RefillStep(i, r.refill[i], r.firsts[i], r.refill[n]);
      if k in r.counts[i] && r.counts[n][k] == r.counts[i][k] {
        CountsAreWins(x, i, r', k);
      }
    }
  }

  /** State: the selection state of one source. wins records the history of decisions. */
  class State {
    var quarantine: map<PairKey, Time>
    var better: map<(Tag, Tag), nat>
    ghost var wins: seq<set<Win>>

    /** Every series is a streak of decisions in a row. */
    ghost predicate Valid()
      reads this
    {
      forall k :: k in better ==> Streak(wins, k, better[k])
    }

    constructor (quarantine: map<PairKey, Time>)
      ensures Valid() && this.quarantine == quarantine && better == map[] && wins == []
    {
      this.quarantine, better, wins := quarantine, map[], [];
    }

    /** Clone: the state of a source as saved; wins is the history of its decisions. */
    constructor Clone(quarantine: map<PairKey, Time>, better: map<(Tag, Tag), nat>, ghost wins: seq<set<Win>>)
      requires forall k :: k in better ==> Streak(wins, k, better[k])
      ensures Valid() && this.quarantine == quarantine && this.better == better && this.wins == wins
    {
      this.quarantine, this.better, this.wins := quarantine, better, wins;
    }

    /** QuarantinePair: the pair of c, for minutes from now. */
    method QuarantinePair(c: Candidate, now: Time, minutes: nat)
      requires Valid()
      modifies this`quarantine
      ensures Valid() && quarantine == old(quarantine)[PairOf(c) := now + minutes * MINUTE]
    {
      quarantine := quarantine[PairOf(c) := now + minutes * MINUTE];
    }

    /** ReleaseSince: the quarantines that started at from or later end. */
    method ReleaseSince(from: Time, minutes: nat) returns (n: nat)
      requires Valid()
      modifies this`quarantine
      ensures Valid()
      ensures quarantine == map p | p in old(quarantine) && old(quarantine)[p] - minutes * MINUTE < from :: old(quarantine)[p]
      ensures n == |old(quarantine)| - |quarantine|
    {
      n := 0;
      var rest := quarantine.Keys;
      ghost var was, gone := quarantine, {};
      while rest != {}
        invariant gone !! rest && gone <= was.Keys && rest <= was.Keys && n == |gone|
        invariant quarantine == was - gone
        invariant forall p :: p in was && p !in rest ==> (p in gone <==> was[p] - minutes * MINUTE >= from)
        decreases rest
      {
        var p :| p in rest;
        rest := rest - {p};
        if quarantine[p] - minutes * MINUTE >= from {
          quarantine := quarantine - {p};
          n, gone := n + 1, gone + {p};
        }
      }
      assert was.Keys == quarantine.Keys + gone;
    }

    /** Decide: one action per active slot. A better candidate takes a slot only if it was found
        better than the same active one in each of the last switchConfirmChecks decisions. */
    method Decide(active: seq<Slot>, ranked: seq<Candidate>, now: Time, cfg: Config) returns (actions: seq<Action>, ghost run: Run)
      requires Valid() && Input(active, ranked, quarantine, better, now, cfg).Valid()
      modifies this
      ensures Valid()
      ensures var x := old(Input(active, ranked, quarantine, better, now, cfg));
        && Decides(x, run) && actions == run.actions
        && quarantine == x.Live() && better == run.counts[|active|]
        && wins == old(wins) + [WinsOf(x, run)]
      ensures forall i :: 0 <= i < |active| && actions[i].Replace? && actions[i].reason == Better ==>
                Streak(wins, (active[i].candidate.tag, actions[i].to.tag), cfg.switchConfirmChecks)
    {
      ghost var x := Input(active, ranked, quarantine, better, now, cfg);
      var live := map p | p in quarantine && now < quarantine[p] :: quarantine[p];
      var firsts, inUse, keys;
      ghost var refill;
      firsts, inUse, keys, refill := Refill(x, active, ranked, live, now);
      FirstPassAssigns(x, |active|, firsts, refill);
      var count;
      actions, count, run := Switch(x, active, ranked, live, better, now, cfg, firsts, inUse, keys, refill);
      SecondPassAssigns(x, |active|, run);
      ghost var wins' := wins + [WinsOf(x, run)];
      forall k | k in count
        ensures Streak(wins', k, count[k])
      {
        CountsAreWins(x, |active|, run, k);
        var i :| 0 <= i < |active| && run.challengers[i].Some? && k == (active[i].candidate.tag, run.challengers[i].value.tag);
        StreakGrows(x, run, i, wins);
      }
      forall i | 0 <= i < |active| && actions[i].Replace? && actions[i].reason == Better
        ensures Streak(wins', (active[i].candidate.tag, actions[i].to.tag), cfg.switchConfirmChecks)
      {
        DecisionIsSound(x, run);
        assert x.RefillStep(i, refill[i], firsts[i], refill[i + 1]);
        StreakGrows(x, run, i, wins);
      }
      quarantine, better, wins := live, count, wins';
    }
  }

  lemma StreakGrows(x: Input, r: Run, i: nat, wins: seq<set<Win>>)
    requires x.Valid() && Decides(x, r) && i < |x.active| && r.challengers[i].Some?
    requires forall k :: k in x.better ==> Streak(wins, k, x.better[k])
    ensures var k := (x.active[i].candidate.tag, r.challengers[i].value.tag);
            Streak(wins + [WinsOf(x, r)], k, x.Series(k))
  {
    SecondPassAssigns(x, |x.active|, r);
    var cur := ByTag(x.ranked, x.active[i].candidate.tag).value;
    assert Win(cur, r.challengers[i].value) in WinsOf(x, r);
  }

  /** The first pass of Decide. */
  method Refill(ghost x: Input, active: seq<Slot>, ranked: seq<Candidate>, live: map<PairKey, Time>, now: Time)
    returns (firsts: seq<Action>, inUse: set<Tag>, keys: set<Key>, ghost refill: seq<Assignment>)
    requires x.Valid() && x.active == active && x.ranked == ranked && x.Live() == live && x.now == now
    ensures FirstPass(x, |active|, firsts, refill)
    ensures inUse == x.InUse(refill[|active|]) && keys == KeysIn(refill[|active|])
  {
    inUse := set i | 0 <= i < |active| :: active[i].candidate.tag;
    keys := set i | 0 <= i < |active| && ByTag(ranked, active[i].candidate.tag).Some? :: active[i].candidate.key;
    firsts, refill := [], [Present(active, ranked)];
    PresentUsed(x);
    for i := 0 to |active|
      invariant FirstPass(x, i, firsts, refill)
      invariant inUse == x.InUse(refill[i]) && keys == KeysIn(refill[i])
    {
      FirstPassAssigns(x, i, firsts, refill);
      var action;
      ghost var fin;
      action, inUse, keys, fin := RefillOne(x, i, active[i].candidate, ranked, live, now, inUse, keys, refill[i]);
      FirstPassGrows(x, i, firsts, refill, action, fin);
      firsts, refill := firsts + [action], refill + [fin];
    }
  }

  lemma FirstPassGrows(x: Input, i: nat, firsts: seq<Action>, refill: seq<Assignment>, action: Action, fin: Assignment)
    requires i < |x.active| && FirstPass(x, i, firsts, refill) && x.RefillStep(i, refill[i], action, fin)
    ensures FirstPass(x, i + 1, firsts + [action], refill + [fin])
  {
  }

  method RefillOne(ghost x: Input, ghost i: nat, a: Candidate, ranked: seq<Candidate>, live: map<PairKey, Time>, now: Time,
                   inUse: set<Tag>, keys: set<Key>, ghost fin: Assignment)
    returns (action: Action, inUse': set<Tag>, keys': set<Key>, ghost fin': Assignment)
    requires i < |x.active| == |fin| && x.active[i].candidate == a && x.ranked == ranked && x.Live() == live && x.now == now
    requires inUse == x.InUse(fin) && keys == KeysIn(fin) && fin[i] == ByTag(ranked, a.tag)
    ensures x.RefillStep(i, fin, action, fin')
    ensures inUse' == x.InUse(fin') && keys' == KeysIn(fin')
  {
    action, inUse', keys', fin' := Keep, inUse, keys, fin;
    if ByTag(ranked, a.tag).None? {
      var reason := if exists c :: c in ranked && PairOf(c) == PairOf(a) then Changed else Gone;
      var next := Replacement(ranked, inUse, keys, live, now);
      if next.Some? {
        action := Replace(next.value, reason);
        UsedMore(fin, i, next.value);
        inUse', keys', fin' := inUse + {next.value.tag}, keys + {next.value.key}, fin[i := next];
      } else {
        action := Remove(reason);
      }
    }
  }

  lemma PresentUsed(x: Input)
    requires x.Valid()
    ensures x.InUse(Present(x.active, x.ranked)) == ActiveTags(x.active)
    ensures KeysIn(Present(x.active, x.ranked)) ==
            set i | 0 <= i < |x.active| && ByTag(x.ranked, x.active[i].candidate.tag).Some? :: x.active[i].candidate.key
  {
    var fin := Present(x.active, x.ranked);
    forall t | t in TagsIn(fin)
      ensures t in ActiveTags(x.active)
    {
      var i :| 0 <= i < |fin| && fin[i].Some? && fin[i].value.tag == t;
      assert x.active[i].candidate.tag == t;
    }
    forall i | 0 <= i < |fin| && fin[i].Some?
      ensures fin[i].value.key == x.active[i].candidate.key
    {
    }
  }

  lemma UsedMore(fin: Assignment, i: nat, c: Candidate)
    requires i < |fin| && fin[i].None?
    ensures TagsIn(fin[i := Some(c)]) == TagsIn(fin) + {c.tag}
    ensures KeysIn(fin[i := Some(c)]) == KeysIn(fin) + {c.key}
  {
    var f := fin[i := Some(c)];
    assert f[i] == Some(c);
    forall j | 0 <= j < |fin| && fin[j].Some?
      ensures fin[j].value.tag in TagsIn(f) && fin[j].value.key in KeysIn(f)
    {
      assert f[j] == fin[j];
    }
    forall j | 0 <= j < |f| && f[j].Some?
      ensures f[j].value.tag in TagsIn(fin) + {c.tag} && f[j].value.key in KeysIn(fin) + {c.key}
    {
      assert j != i ==> f[j] == fin[j];
    }
  }

  /** The second pass of Decide. */
  method Switch(ghost x: Input, active: seq<Slot>, ranked: seq<Candidate>, live: map<PairKey, Time>, better: map<(Tag, Tag), nat>,
                now: Time, cfg: Config, firsts: seq<Action>, inUse0: set<Tag>, keys0: set<Key>, ghost refill: seq<Assignment>)
    returns (actions: seq<Action>, count: map<(Tag, Tag), nat>, ghost run: Run)
    requires x.Valid() && x.active == active && x.ranked == ranked && x.Live() == live && x.better == better && x.now == now && x.cfg == cfg
    requires FirstPass(x, |active|, firsts, refill)
    requires inUse0 == x.InUse(refill[|active|]) && keys0 == KeysIn(refill[|active|])
    ensures run.firsts == firsts && run.refill == refill && actions == run.actions
    ensures Decides(x, run) && count == run.counts[|active|]
  {
    var inUse, keys := inUse0, keys0;
    actions, count := [], map[];
    run := Run(firsts, refill, [], [refill[|active|]], [], [map[]]);
    for i := 0 to |active|
      invariant SecondPass(x, i, run) && run.firsts == firsts && run.refill == refill
      invariant actions == run.actions && count == run.counts[i]
      invariant inUse == x.InUse(run.switch[i]) && keys == KeysIn(run.switch[i])
    {
      FirstPassAssigns(x, |active|, firsts, refill);
      SecondPassAssigns(x, i, run);
      assert x.RefillStep(i, refill[i], firsts[i], refill[i + 1]);
      var action, challenger;
      ghost var fin;
      action, challenger, inUse, keys, count, fin :=
        SwitchOne(x, i, active[i], ranked, live, better, now, cfg, firsts[i], inUse, keys, count, run.switch[i]);
      SecondPassGrows(x, i, run, challenger, action, fin, count);
      actions := actions + [action];
      run := run.(actions := run.actions + [action], switch := run.switch + [fin],
                  challengers := run.challengers + [challenger], counts := run.counts + [count]);
    }
  }

  lemma SecondPassGrows(x: Input, i: nat, r: Run, challenger: Option<Candidate>, action: Action, fin: Assignment, count: map<(Tag, Tag), nat>)
    requires i < |x.active| && SecondPass(x, i, r)
    requires x.SwitchStep(i, r.switch[i], r.counts[i], r.firsts[i], challenger, action, fin, count)
    ensures SecondPass(x, i + 1, r.(actions := r.actions + [action], switch := r.switch + [fin],
                                    challengers := r.challengers + [challenger], counts := r.counts + [count]))
  {
  }

  method SwitchOne(ghost x: Input, ghost i: nat, a: Slot, ranked: seq<Candidate>, live: map<PairKey, Time>, better: map<(Tag, Tag), nat>,
                   now: Time, cfg: Config, first: Action, inUse: set<Tag>, keys: set<Key>, count: map<(Tag, Tag), nat>, ghost fin: Assignment)
    returns (action: Action, challenger: Option<Candidate>, inUse': set<Tag>, keys': set<Key>, count': map<(Tag, Tag), nat>, ghost fin': Assignment)
    requires i < |x.active| == |fin| && x.active[i] == a && x.ranked == ranked && x.Live() == live && x.better == better && x.now == now && x.cfg == cfg
    requires inUse == x.InUse(fin) && keys == KeysIn(fin) && Exclusive(fin)
    requires first == Keep ==> fin[i] == ByTag(ranked, a.candidate.tag) && fin[i].Some?
    ensures x.SwitchStep(i, fin, count, first, challenger, action, fin', count')
    ensures inUse' == x.InUse(fin') && keys' == KeysIn(fin')
  {
    action, challenger, inUse', keys', count', fin' := first, None, inUse, keys, count, fin;
    if first == Keep && a.healthy && cfg.strategy != ByLabel {
      var cur := ByTag(ranked, a.candidate.tag).value;
      Vacate(fin, i);
      keys' := keys - {cur.key};
      challenger := FindBetter(ranked, cur, inUse, keys', live, now, cfg);
      if challenger.Some? {
        var k := (cur.tag, challenger.value.tag);
        var series := 1 + if k in better then better[k] else 0;
        if series >= cfg.switchConfirmChecks {
          count' := (count[k := series]) - {k};
          assert count' == count - {k};
          action := Replace(challenger.value, Better);
          UsedMore(fin[i := None], i, challenger.value);
          assert fin[i := None][i := challenger] == fin[i := challenger];
          InUseAfter(x, i, fin);
          inUse', fin' := inUse + {challenger.value.tag}, fin[i := challenger];
          keys' := keys' + {challenger.value.key};
        } else {
          count' := count[k := series];
        }
      }
      if action == Keep {
        keys' := keys' + {cur.key};
      }
    }
  }

  /** An active tag stays in use when its slot is given away. */
  lemma InUseAfter(x: Input, i: nat, fin: Assignment)
    requires i < |x.active| == |fin| && fin[i].Some? && fin[i].value.tag == x.active[i].candidate.tag
    ensures x.InUse(fin[i := None]) == x.InUse(fin)
  {
    TagsWithout(fin, i);
    forall t | t in TagsIn(fin)
      ensures t in x.InUse(fin[i := None])
    {
      var j :| 0 <= j < |fin| && fin[j].Some? && fin[j].value.tag == t;
      if j != i {
        assert fin[i := None][j] == fin[j];
      }
    }
  }
}
