/** What replacing the outbounds of a source leaves in Xray when the fate of every call is given,
    and when it may leave both outbounds of a tunnel there (internal/scd/apply/outbounds.go). */
module ApplyScript {
  import opened Namespaces
  import opened Sets
  import opened SourceRules
  import opened XrayApi

  function Tags(hs: seq<Outbound>): seq<Tag> {
    seq(|hs|, i requires 0 <= i < |hs| => hs[i].tag)
  }

  /** The outbounds of s that an apply of the scope replaces. */
  function Mine(scope: Scope, s: Server): set<Tag> {
    set tag | tag in s.outbounds && scope.Covers(KindOutbound, tag)
  }

  predicate Distinct(hs: seq<Outbound>) {
    forall i, j :: 0 <= i < j < |hs| ==> hs[i].tag != hs[j].tag
  }

  // ---- the fates of an apply

  /** What becomes of one step: how often Xray restarts before it, whether Xray carries it out,
      and whether the answer arrives (in the restore: the answer of the cap check). */
  datatype Fate = Fate(restarts: nat, done: bool, answered: bool) {
    predicate Ok() { done && answered }
  }

  /** An apply: the outbounds to remove, in the order listed, the entries to add and, for the
      restore, the cap of the source (0 for none). */
  datatype Job = Job(t: Target, caps: seq<Cap>, ns: Namespace, limit: nat, boot: Server, mine: seq<Outbound>, entries: seq<Outbound>)

  /** The fates of its steps: the removals and additions that worked, the step that failed, if one
      did, and then those of the rollback. */
  datatype Script = Script(removed: seq<Fate>, added: seq<Fate>, stop: Fate, takenBack: seq<Fate>, restored: seq<Fate>)

  function Restarted(boot: Server, s: Server, n: nat): Server {
    if n == 0 then s else boot.(restarts := s.restarts + n)
  }

  function AfterRemoval(boot: Server, s: Server, tag: Tag, f: Fate): Server {
    var b := Restarted(boot, s, f.restarts);
    if f.done then b.WithoutOutbound(tag) else b
  }

  ghost function AfterAddition(job: Job, s: Server, h: Outbound, f: Fate): Server {
    var b := Restarted(job.boot, s, f.restarts);
    if f.done && Takes(job.t, job.caps, b, h) then b.WithOutbound(h) else b
  }

  /** The addition of h succeeds. */
  ghost predicate Succeeds(job: Job, s: Server, h: Outbound, f: Fate) {
    f.Ok() && Takes(job.t, job.caps, Restarted(job.boot, s, f.restarts), h)
  }

  /** hs are removed in order. */
  function Removing(boot: Server, s: Server, hs: seq<Outbound>, fs: seq<Fate>): Server
    requires |fs| == |hs|
  {
    if hs == [] then s
    else
      var n := |hs| - 1;
      AfterRemoval(boot, Removing(boot, s, hs[..n], fs[..n]), hs[n].tag, fs[n])
  }

  /** hs are added in order. */
  ghost function Adding(job: Job, s: Server, hs: seq<Outbound>, fs: seq<Fate>): Server
    requires |fs| == |hs|
  {
    if hs == [] then s
    else
      var n := |hs| - 1;
      AfterAddition(job, Adding(job, s, hs[..n], fs[..n]), hs[n], fs[n])
  }

  ghost predicate AllSucceed(job: Job, s: Server, hs: seq<Outbound>, fs: seq<Fate>)
    requires |fs| == |hs|
  {
    hs != [] ==>
      var n := |hs| - 1;
      AllSucceed(job, s, hs[..n], fs[..n]) && Succeeds(job, Adding(job, s, hs[..n], fs[..n]), hs[n], fs[n])
  }

  /** The last |fs| of hs are removed, last first. */
  function TakingBack(boot: Server, s: Server, hs: seq<Outbound>, fs: seq<Fate>): Server
    requires |fs| <= |hs|
  {
    if fs == [] then s
    else
      var n := |fs| - 1;
      AfterRemoval(boot, TakingBack(boot, s, hs, fs[..n]), hs[|hs| - |fs|].tag, fs[n])
  }

  /** How far a restore is; going until its cap check refuses. */
  datatype Progress = Progress(s: Server, going: bool)

  /** The next backup of a restore that is going. */
  ghost function AfterRestore(job: Job, s: Server, h: Outbound, f: Fate): Progress {
    var b := Restarted(job.boot, s, f.restarts);
    if job.limit > 0 && !(f.answered && Room(job.t, Cap(job.ns, job.limit), b)) then Progress(b, false)
    else Progress(AfterAddition(job, s, h, f), true)
  }

  /** The first |fs| of hs are restored in order. */
  ghost function Restoring(job: Job, s: Server, hs: seq<Outbound>, fs: seq<Fate>): Progress
    requires |fs| <= |hs|
  {
    if fs == [] then Progress(s, true)
    else
      var n := |fs| - 1;
      var p := Restoring(job, s, hs, fs[..n]);
      if p.going then AfterRestore(job, p.s, hs[n], fs[n]) else p
  }

  predicate Fails(job: Job, sc: Script) {
    |sc.removed| < |job.mine| || |sc.added| < |job.entries|
  }

  predicate Sized(job: Job, sc: Script) {
    && |sc.removed| <= |job.mine| && |sc.added| <= |job.entries|
    && (|sc.removed| < |job.mine| ==> sc.added == [])
    && |sc.takenBack| <= |sc.added|
    && |sc.restored| <= |sc.removed|
  }

  /** Xray once steps 3 and 4 are over. */
  ghost function Stopped(job: Job, a: Server, sc: Script): Server
    requires Sized(job, sc)
  {
    var k, n := |sc.removed|, |sc.added|;
    var s := Removing(job.boot, a, job.mine[..k], sc.removed);
    if k < |job.mine| then AfterRemoval(job.boot, s, job.mine[k].tag, sc.stop)
    else
      var s' := Adding(job, s, job.entries[..n], sc.added);
      if n < |job.entries| then AfterAddition(job, s', job.entries[n], sc.stop) else s'
  }

  /** Xray when the restore begins. */
  ghost function TakenBack(job: Job, a: Server, sc: Script): Server
    requires Sized(job, sc)
  {
    TakingBack(job.boot, Stopped(job, a, sc), job.entries[..|sc.added|], sc.takenBack)
  }

  /** The script is that of steps 3 and 4 of an apply that finds Xray in state a, in whole. */
  ghost predicate Stops(job: Job, a: Server, sc: Script) {
    && Sized(job, sc)
    && (forall i :: 0 <= i < |sc.removed| ==> sc.removed[i].Ok())
    && var s := Removing(job.boot, a, job.mine[..|sc.removed|], sc.removed);
    && AllSucceed(job, s, job.entries[..|sc.added|], sc.added)
    && (|sc.removed| < |job.mine| ==> !sc.stop.Ok())
    && (|sc.removed| == |job.mine| && |sc.added| < |job.entries| ==>
          !Succeeds(job, Adding(job, s, job.entries[..|sc.added|], sc.added), job.entries[|sc.added|], sc.stop))
  }

  /** The script is that of a whole apply. */
  ghost predicate IsRun(job: Job, a: Server, sc: Script) {
    && Stops(job, a, sc)
    && (Fails(job, sc) ==>
          && |sc.takenBack| == |sc.added|
          && (|sc.restored| == |sc.removed| || !Restoring(job, TakenBack(job, a, sc), job.mine[..|sc.removed|], sc.restored).going))
  }

  /** Xray after the apply. */
  ghost function End(job: Job, a: Server, sc: Script): Server
    requires Sized(job, sc)
  {
    if Fails(job, sc) then Restoring(job, TakenBack(job, a, sc), job.mine[..|sc.removed|], sc.restored).s
    else Stopped(job, a, sc)
  }

  predicate Both(p: (Tag, Tag), s: Server) {
    p.0 in s.outbounds && p.1 in s.outbounds
  }

  // ---- what each step can leave

  lemma {:induction false} RemovingLeaves(boot: Server, s: Server, hs: seq<Outbound>, fs: seq<Fate>, tag: Tag)
    requires |fs| == |hs| && tag !in boot.outbounds
    ensures tag in Removing(boot, s, hs, fs).outbounds ==> tag in s.outbounds
    ensures (forall i :: 0 <= i < |fs| ==> fs[i].done) && tag in Tags(hs) ==> tag !in Removing(boot, s, hs, fs).outbounds
  {
    if hs != [] {
      var n := |hs| - 1;
      RemovingLeaves(boot, s, hs[..n], fs[..n], tag);
      assert Tags(hs) == Tags(hs[..n]) + [hs[n].tag];
    }
  }

  lemma {:induction false} AddingLeaves(job: Job, s: Server, hs: seq<Outbound>, fs: seq<Fate>, tag: Tag)
    requires |fs| == |hs| && tag !in job.boot.outbounds
    ensures tag in Adding(job, s, hs, fs).outbounds ==> tag in s.outbounds || tag in Tags(hs)
  {
    if hs != [] {
      var n := |hs| - 1;
      AddingLeaves(job, s, hs[..n], fs[..n], tag);
      assert Tags(hs) == Tags(hs[..n]) + [hs[n].tag];
    }
  }

  lemma {:induction false} TakingBackLeaves(boot: Server, s: Server, hs: seq<Outbound>, fs: seq<Fate>, tag: Tag)
    requires |fs| <= |hs| && tag !in boot.outbounds
    ensures tag in TakingBack(boot, s, hs, fs).outbounds ==> tag in s.outbounds
    ensures (forall i :: 0 <= i < |fs| ==> fs[i].done) && tag in Tags(hs[|hs| - |fs|..]) ==> tag !in TakingBack(boot, s, hs, fs).outbounds
  {
    if fs != [] {
      var n := |fs| - 1;
      TakingBackLeaves(boot, s, hs, fs[..n], tag);
      assert hs[|hs| - |fs|..] == [hs[|hs| - |fs|]] + hs[|hs| - n..];
      assert Tags(hs[|hs| - |fs|..]) == [hs[|hs| - |fs|].tag] + Tags(hs[|hs| - n..]);
    }
  }

  lemma {:induction false} RestoringLeaves(job: Job, s: Server, hs: seq<Outbound>, fs: seq<Fate>, tag: Tag)
    requires |fs| <= |hs| && tag !in job.boot.outbounds
    ensures tag in Restoring(job, s, hs, fs).s.outbounds ==> tag in s.outbounds || tag in Tags(hs)
  {
    if fs != [] {
      var n := |fs| - 1;
      RestoringLeaves(job, s, hs, fs[..n], tag);
      assert Tags(hs)[n] == hs[n].tag;
    }
  }

  /** What an apply is about: an Xray that boots without resources of the source, all the outbounds
      of the source in state a, and entries of the source. */
  ghost predicate Sensible(job: Job, a: Server) {
    var scope := SourceScope(job.t, job.ns);
    && Clear(scope, job.boot)
    && (forall h :: h in job.mine ==> h.tag in Mine(scope, a))
    && (forall tag :: tag in Mine(scope, a) ==> tag in Tags(job.mine))
    && (forall h :: h in job.entries ==> scope.Covers(KindOutbound, h.tag))
  }

  /** p are the outbounds of a tunnel of the source, prefixed and bare, of which Xray has at most
      one; no entry has a bare tag. */
  ghost predicate TwinsOfSource(job: Job, a: Server, p: (Tag, Tag)) {
    var scope := SourceScope(job.t, job.ns);
    && p.0 != p.1 && scope.Covers(KindOutbound, p.0) && scope.Covers(KindOutbound, p.1)
    && !Both(p, a) && p.1 !in Tags(job.entries)
  }

  lemma TagOf(hs: seq<Outbound>, n: nat, tag: Tag)
    requires n <= |hs| && tag in Tags(hs[..n])
    ensures tag in Tags(hs)
  {
    var i :| 0 <= i < |Tags(hs[..n])| && Tags(hs[..n])[i] == tag;
    assert Tags(hs)[i] == tag;
  }

  /** Until the restore begins the two outbounds of a tunnel never meet, and what there is of them
      was there before or is an entry. */
  lemma {:induction false} StoppedApart(job: Job, a: Server, sc: Script, p: (Tag, Tag))
    requires Sensible(job, a) && TwinsOfSource(job, a, p) && Stops(job, a, sc)
    ensures !Both(p, Stopped(job, a, sc))
    ensures forall tag :: tag in {p.0, p.1} && tag in Stopped(job, a, sc).outbounds ==>
              tag in a.outbounds || (|sc.removed| == |job.mine| && tag in Tags(job.entries))
    ensures |sc.removed| == |job.mine| ==> forall tag :: tag in {p.0, p.1} && tag in Stopped(job, a, sc).outbounds ==>
              tag in Tags(job.entries)
  {
    var k, n := |sc.removed|, |sc.added|;
    var s := Removing(job.boot, a, job.mine[..k], sc.removed);
    forall tag | tag in {p.0, p.1}
      ensures tag in Stopped(job, a, sc).outbounds ==> if k < |job.mine| then tag in a.outbounds else tag in Tags(job.entries)
    {
      RemovingLeaves(job.boot, a, job.mine[..k], sc.removed, tag);
      if k == |job.mine| {
        assert job.mine[..k] == job.mine;
        assert tag !in s.outbounds;
        AddingLeaves(job, s, job.entries[..n], sc.added, tag);
        if tag in Tags(job.entries[..n]) {
          TagOf(job.entries, n, tag);
        }
        if n < |job.entries| {
          assert Tags(job.entries)[n] == job.entries[n].tag;
        }
      }
    }
  }

  /** With a cap of one an outbound is restored only where the source has none. */
  lemma {:induction false} RestoringAlone(job: Job, s: Server, hs: seq<Outbound>, fs: seq<Fate>, p: (Tag, Tag))
    requires |fs| <= |hs| && job.limit == 1 && Clear(SourceScope(job.t, job.ns), job.boot) && !Both(p, s)
    requires p.0 != p.1 && SourceScope(job.t, job.ns).Covers(KindOutbound, p.0) && SourceScope(job.t, job.ns).Covers(KindOutbound, p.1)
    ensures !Both(p, Restoring(job, s, hs, fs).s)
  {
    if fs != [] {
      var n := |fs| - 1;
      RestoringAlone(job, s, hs, fs[..n], p);
      var before := Restoring(job, s, hs, fs[..n]);
      if before.going {
        var b := Restarted(job.boot, before.s, fs[n].restarts);
        if Room(job.t, Cap(job.ns, 1), b) {
          assert Owned(job.t, job.ns, b) == {};
          assert p.0 !in Owned(job.t, job.ns, b) && p.1 !in Owned(job.t, job.ns, b);
        }
      }
    }
  }

  /** The tunnel runs on its bare outbound, its candidate is among the entries, and the source may
      have more than one outbound. */
  predicate MayMeet(job: Job, a: Server, p: (Tag, Tag)) {
    p.1 in a.outbounds && p.0 in Tags(job.entries) && job.limit != 1
  }

  /** The tags of the source that Xray may hold once the backups of mine are restored. */
  ghost function Reach(job: Job, a: Server, sc: Script): set<Tag>
    requires Sized(job, sc)
  {
    TakenBack(job, a, sc).outbounds.Keys + TagSet(job.mine[..|sc.removed|])
  }

  lemma {:induction false} InReachOnlyIf(job: Job, a: Server, sc: Script, p: (Tag, Tag))
    requires Sensible(job, a) && TwinsOfSource(job, a, p) && Stops(job, a, sc)
    requires p.0 in Reach(job, a, sc) && p.1 in Reach(job, a, sc)
    ensures p.1 in a.outbounds && p.0 in Tags(job.entries)
  {
    StoppedApart(job, a, sc, p);
    var n := |sc.removed|;
    TagSetOf(job.mine[..n]);
    forall tag | tag in {p.0, p.1} && tag in Reach(job, a, sc)
      ensures tag in a.outbounds || tag in Tags(job.entries)
    {
      TakingBackLeaves(job.boot, Stopped(job, a, sc), job.entries[..|sc.added|], sc.takenBack, tag);
      if tag in Tags(job.mine[..n]) {
        BackupWasThere(job, a, n, tag);
      }
    }
  }

  lemma {:induction false} EndsInReach(job: Job, a: Server, sc: Script, tag: Tag)
    requires Sensible(job, a) && IsRun(job, a, sc) && Fails(job, sc) && SourceScope(job.t, job.ns).Covers(KindOutbound, tag)
    ensures tag in End(job, a, sc).outbounds ==> tag in Reach(job, a, sc)
  {
    var hs := job.mine[..|sc.removed|];
    RestoringLeaves(job, TakenBack(job, a, sc), hs, sc.restored, tag);
    TagSetOf(hs);
  }

  lemma {:induction false} MetOnlyIf(job: Job, a: Server, sc: Script, p: (Tag, Tag))
    requires Sensible(job, a) && TwinsOfSource(job, a, p) && IsRun(job, a, sc) && Both(p, End(job, a, sc))
    ensures MayMeet(job, a, p)
  {
    StoppedApart(job, a, sc, p);
    assert Fails(job, sc);
    EndsInReach(job, a, sc, p.0);
    EndsInReach(job, a, sc, p.1);
    InReachOnlyIf(job, a, sc, p);
    if job.limit == 1 {
      TakingBackLeaves(job.boot, Stopped(job, a, sc), job.entries[..|sc.added|], sc.takenBack, p.0);
      TakingBackLeaves(job.boot, Stopped(job, a, sc), job.entries[..|sc.added|], sc.takenBack, p.1);
      RestoringAlone(job, TakenBack(job, a, sc), job.mine[..|sc.removed|], sc.restored, p);
    }
  }

  /** The answer of the step that failed was not lost, and the rollback took back what was added. */
  predicate Answered(sc: Script) {
    (sc.stop.done ==> sc.stop.answered) && forall i :: 0 <= i < |sc.takenBack| ==> sc.takenBack[i].done
  }

  /** Without losses a restore finds nothing of the source that was not there before. */
  lemma {:induction false} TakenBackLeaves(job: Job, a: Server, sc: Script, tag: Tag)
    requires Sensible(job, a) && Stops(job, a, sc) && |sc.takenBack| == |sc.added| && Answered(sc)
    requires SourceScope(job.t, job.ns).Covers(KindOutbound, tag)
    ensures tag in TakenBack(job, a, sc).outbounds ==> tag in a.outbounds
  {
    var k, n := |sc.removed|, |sc.added|;
    var added := job.entries[..n];
    TakingBackLeaves(job.boot, Stopped(job, a, sc), added, sc.takenBack, tag);
    assert added[0..] == added;
    RemovingLeaves(job.boot, a, job.mine[..k], sc.removed, tag);
    AddingLeaves(job, Removing(job.boot, a, job.mine[..k], sc.removed), added, sc.added, tag);
  }

  /** Without losses what is in reach was there before, so the two outbounds of a tunnel are not
      both. */
  lemma {:induction false} NotInReach(job: Job, a: Server, sc: Script, p: (Tag, Tag))
    requires Sensible(job, a) && TwinsOfSource(job, a, p) && Stops(job, a, sc) && |sc.takenBack| == |sc.added| && Answered(sc)
    ensures !(p.0 in Reach(job, a, sc) && p.1 in Reach(job, a, sc))
  {
    var n := |sc.removed|;
    TagSetOf(job.mine[..n]);
    forall tag | tag in {p.0, p.1} && tag in Reach(job, a, sc)
      ensures tag in a.outbounds
    {
      TakenBackLeaves(job, a, sc, tag);
      if tag in Tags(job.mine[..n]) {
        BackupWasThere(job, a, n, tag);
      }
    }
  }

  /** If no answer of an addition was lost and the rollback took back what was added, the two
      outbounds of a tunnel do not meet. */
  lemma {:induction false} ApartWithoutLosses(job: Job, a: Server, sc: Script, p: (Tag, Tag))
    requires Sensible(job, a) && TwinsOfSource(job, a, p) && IsRun(job, a, sc) && Answered(sc)
    ensures !Both(p, End(job, a, sc))
  {
    if Fails(job, sc) {
      NotInReach(job, a, sc, p);
      EndsInReach(job, a, sc, p.0);
      EndsInReach(job, a, sc, p.1);
    } else {
      StoppedApart(job, a, sc, p);
    }
  }

  lemma BackupWasThere(job: Job, a: Server, n: nat, tag: Tag)
    requires Sensible(job, a) && n <= |job.mine| && tag in Tags(job.mine[..n])
    ensures tag in a.outbounds
  {
    var i :| 0 <= i < n && Tags(job.mine[..n])[i] == tag;
    assert job.mine[i] in job.mine;
  }

  /** If the prefixed outbound is left over when the restore begins, Xray does not restart any
      more and the restore of the bare one is carried out, where it fits the caps, both are there
      at the end. */
  lemma {:induction false} MetIf(job: Job, a: Server, sc: Script, p: (Tag, Tag), k: nat)
    requires IsRun(job, a, sc) && Fails(job, sc) && p.0 in TakenBack(job, a, sc).outbounds
    requires k < |sc.restored| && job.mine[k].tag == p.1 && sc.restored[k].Ok()
    requires forall i :: 0 <= i < |sc.restored| ==> sc.restored[i].restarts == 0
    requires var at := Restoring(job, TakenBack(job, a, sc), job.mine[..|sc.removed|], sc.restored[..k]);
             at.going && Takes(job.t, job.caps, at.s, job.mine[k]) && (job.limit > 0 ==> Room(job.t, Cap(job.ns, job.limit), at.s))
    ensures Both(p, End(job, a, sc))
  {
    var s, hs := TakenBack(job, a, sc), job.mine[..|sc.removed|];
    RestoringKeeps(job, s, hs, sc.restored, 0, p.0);
    assert sc.restored[..k + 1][..k] == sc.restored[..k];
    RestoringKeeps(job, s, hs, sc.restored, k + 1, p.1);
    RestoringKeeps(job, s, hs, sc.restored, 0, p.0);
  }

  lemma {:induction false} RestoringKeeps(job: Job, s: Server, hs: seq<Outbound>, fs: seq<Fate>, k: nat, tag: Tag)
    requires k <= |fs| <= |hs| && tag in Restoring(job, s, hs, fs[..k]).s.outbounds
    requires forall i :: 0 <= i < |fs| ==> fs[i].restarts == 0
    ensures tag in Restoring(job, s, hs, fs).s.outbounds
  {
    if k == |fs| {
      assert fs[..k] == fs;
    } else {
      var n := |fs| - 1;
      assert fs[..n][..k] == fs[..k];
      RestoringKeeps(job, s, hs, fs[..n], k, tag);
    }
  }

  // ---- a run in which they meet

  /** The entries fit the cap, which is the only one on their tags, and differ. */
  ghost predicate Fitting(job: Job) {
    && Distinct(job.entries) && (job.limit > 0 ==> |job.entries| <= job.limit)
    && forall i, tag :: 0 <= i < |job.caps| && job.ns.Owns(KindOutbound, tag) && job.caps[i].ns.Owns(KindOutbound, tag) ==>
         job.caps[i] == Cap(job.ns, job.limit) && job.limit > 0
  }

  function Fine(n: nat): (fs: seq<Fate>)
    ensures |fs| == n && forall i :: 0 <= i < n ==> fs[i] == Fate(0, true, true)
  {
    seq(n, _ => Fate(0, true, true))
  }

  /** Only the k-th of n additions is carried out. */
  function Only(k: nat, n: nat): (fs: seq<Fate>)
    ensures |fs| == n && forall i :: 0 <= i < n ==> fs[i] == Fate(0, i == k, true)
  {
    seq(n, i => Fate(0, i == k, true))
  }

  /** The tags are all that the source has in s. */
  ghost predicate Has(job: Job, s: Server, tags: set<Tag>) {
    Owned(job.t, job.ns, s) == tags
  }

  lemma TakesMore(job: Job, s: Server, tags: set<Tag>, h: Outbound)
    requires Fitting(job) && Has(job, s, tags) && SourceScope(job.t, job.ns).Covers(KindOutbound, h.tag)
    requires h.tag !in tags && (job.limit > 0 ==> |tags| < job.limit)
    ensures Takes(job.t, job.caps, s, h) && Has(job, s.WithOutbound(h), tags + {h.tag})
    ensures job.limit > 0 ==> Room(job.t, Cap(job.ns, job.limit), s)
  {
    assert h.tag in s.outbounds ==> h.tag in Owned(job.t, job.ns, s);
    assert Owned(job.t, job.ns, s.WithOutbound(h)) == tags + {h.tag};
  }

  function TagSet(hs: seq<Outbound>): set<Tag> {
    if hs == [] then {} else TagSet(hs[..|hs| - 1]) + {hs[|hs| - 1].tag}
  }

  lemma {:induction false} TagSetOf(hs: seq<Outbound>)
    ensures |TagSet(hs)| <= |hs|
    ensures forall tag :: tag in TagSet(hs) <==> tag in Tags(hs)
  {
    if hs != [] {
      var n := |hs| - 1;
      TagSetOf(hs[..n]);
      assert Tags(hs) == Tags(hs[..n]) + [hs[n].tag];
    }
  }

  lemma FirstOfTag(hs: seq<Outbound>, n: nat)
    requires Distinct(hs) && n < |hs|
    ensures hs[n].tag !in TagSet(hs[..n]) && TagSet(hs[..n + 1]) == TagSet(hs[..n]) + {hs[n].tag}
  {
    TagSetOf(hs[..n]);
    assert hs[..n + 1][..n] == hs[..n];
  }

  lemma {:induction false} TagSetOfRest(hs: seq<Outbound>, k: nat)
    requires k < |hs|
    ensures TagSet(hs[k..]) == TagSet(hs[k + 1..]) + {hs[k].tag}
  {
    var n := |hs| - 1;
    if k == n {
      assert hs[k..] == [hs[n]] && [hs[n]][..0] == [] && hs[k + 1..] == [];
    } else {
      TagSetOfRest(hs[..n], k);
      assert hs[k..][..n - k] == hs[..n][k..] && hs[k + 1..][..n - k - 1] == hs[..n][k + 1..];
    }
  }

  lemma {:induction false} AddingWorks(job: Job, s: Server, hs: seq<Outbound>)
    requires Fitting(job) && Has(job, s, {}) && Distinct(hs) && (job.limit > 0 ==> |hs| <= job.limit)
    requires forall h :: h in hs ==> SourceScope(job.t, job.ns).Covers(KindOutbound, h.tag)
    ensures AllSucceed(job, s, hs, Fine(|hs|)) && Has(job, Adding(job, s, hs, Fine(|hs|)), TagSet(hs))
  {
    if hs == [] {
      assert TagSet(hs) == {};
    } else {
      var n := |hs| - 1;
      AddingWorks(job, s, hs[..n]);
      assert Fine(|hs|)[..n] == Fine(n);
      FirstOfTag(hs, n);
      TagSetOf(hs[..n]);
      TakesMore(job, Adding(job, s, hs[..n], Fine(n)), TagSet(hs[..n]), hs[n]);
    }
  }

  lemma {:induction false} TakingBackWorks(job: Job, s: Server, hs: seq<Outbound>, n: nat)
    requires n <= |hs|
    ensures TakingBack(job.boot, s, hs, Fine(n)).outbounds == s.outbounds - TagSet(hs[|hs| - n..])
  {
    if n == 0 {
      assert TagSet(hs[|hs|..]) == {};
    } else {
      TakingBackWorks(job, s, hs, n - 1);
      assert Fine(n)[..n - 1] == Fine(n - 1);
      TagSetOfRest(hs, |hs| - n);
    }
  }

  /** With the prefixed outbound left over, the restore of the bare one makes two. */
  lemma {:induction false} RestoringMeets(job: Job, s: Server, hs: seq<Outbound>, k: nat, n: nat, p: (Tag, Tag))
    requires Fitting(job) && Has(job, s, {p.0}) && p.0 != p.1 && job.limit != 1
    requires k < |hs| && hs[k].tag == p.1 && n <= |hs| && SourceScope(job.t, job.ns).Covers(KindOutbound, p.1)
    ensures var r := Restoring(job, s, hs, Only(k, n));
            if n <= k then r == Progress(s, true) else Both(p, r.s)
  {
    if n > 0 {
      RestoringMeets(job, s, hs, k, n - 1, p);
      assert Only(k, n)[..n - 1] == Only(k, n - 1);
      assert p.0 in Owned(job.t, job.ns, s);
      TakesMore(job, s, {p.0}, hs[k]);
    }
  }

  /** A run without a restart in which the answer to the addition of entry j is lost and of the
      backups only the k-th is restored. */
  function LostAt(job: Job, j: nat, k: nat): Script {
    Script(Fine(|job.mine|), Fine(j), Fate(0, true, false), Fine(j), Only(k, |job.mine|))
  }

  /** Such a run reaches the restore with entry j alone. */
  lemma {:induction false} LostReachesRestore(job: Job, a: Server, j: nat, k: nat)
    requires Sensible(job, a) && Fitting(job) && j < |job.entries|
    ensures var s := Removing(job.boot, a, job.mine, Fine(|job.mine|));
            AllSucceed(job, s, job.entries[..j], Fine(j))
    ensures Has(job, TakenBack(job, a, LostAt(job, j, k)), {job.entries[j].tag})
  {
    var first, h := job.entries[..j], job.entries[j];
    var s := Removing(job.boot, a, job.mine, Fine(|job.mine|));
    RemovedAll(job, a);
    AddingWorks(job, s, first);
    FirstOfTag(job.entries, j);
    TagSetOf(first);
    var s' := Adding(job, s, first, Fine(j));
    TakesMore(job, s', TagSet(first), h);
    assert job.mine[..|job.mine|] == job.mine;
    assert Stopped(job, a, LostAt(job, j, k)) == s'.WithOutbound(h);
    OnlyLeft(job, s'.WithOutbound(h), first, h.tag);
  }

  lemma OnlyLeft(job: Job, s: Server, hs: seq<Outbound>, tag: Tag)
    requires Has(job, s, TagSet(hs) + {tag}) && tag !in TagSet(hs)
    ensures Has(job, TakingBack(job.boot, s, hs, Fine(|hs|)), {tag})
  {
    TakingBackWorks(job, s, hs, |hs|);
    assert hs[0..] == hs;
    var r := TakingBack(job.boot, s, hs, Fine(|hs|));
    forall t
      ensures t in Owned(job.t, job.ns, r) <==> t in Owned(job.t, job.ns, s) && t !in TagSet(hs)
    {
    }
  }

  /** A run, without a restart, that ends with both outbounds of the tunnel. */
  lemma {:induction false} Meeting(job: Job, a: Server, p: (Tag, Tag)) returns (sc: Script)
    requires Sensible(job, a) && TwinsOfSource(job, a, p) && Fitting(job) && MayMeet(job, a, p)
    ensures IsRun(job, a, sc) && Both(p, End(job, a, sc))
  {
    assert p.1 in Mine(SourceScope(job.t, job.ns), a);
    var k :| 0 <= k < |job.mine| && Tags(job.mine)[k] == p.1;
    var j :| 0 <= j < |job.entries| && Tags(job.entries)[j] == p.0;
    sc := LostAt(job, j, k);
    LostReachesRestore(job, a, j, k);
    assert job.mine[..|job.mine|] == job.mine;
    RestoringMeets(job, TakenBack(job, a, sc), job.mine, k, |job.mine|, p);
  }

  lemma {:induction false} RemovedAll(job: Job, a: Server)
    requires Sensible(job, a)
    ensures Has(job, Removing(job.boot, a, job.mine, Fine(|job.mine|)), {})
  {
    var r := Removing(job.boot, a, job.mine, Fine(|job.mine|));
    forall tag | SourceScope(job.t, job.ns).Covers(KindOutbound, tag)
      ensures tag !in r.outbounds
    {
      RemovingLeaves(job.boot, a, job.mine, Fine(|job.mine|), tag);
    }
  }

  /** An apply may end with both outbounds of a tunnel exactly when the tunnel runs on its bare
      outbound, its candidate is applied again and the source may have two outbounds. */
  lemma MeetExactlyWhen(job: Job, a: Server, p: (Tag, Tag))
    requires Sensible(job, a) && TwinsOfSource(job, a, p) && Fitting(job)
    ensures (exists sc :: IsRun(job, a, sc) && Both(p, End(job, a, sc))) <==> MayMeet(job, a, p)
  {
    if sc :| IsRun(job, a, sc) && Both(p, End(job, a, sc)) {
      MetOnlyIf(job, a, sc, p);
    }
    if MayMeet(job, a, p) {
      var sc := Meeting(job, a, p);
    }
  }

  // ---- two such applies

  /** A source with two slots whose one tunnel runs on its bare outbound; entries are applied. */
  function Repaired(entries: seq<Outbound>): Job {
    var ns := Namespace("p", "s");
    Job(Target("p", [], [], []), [Cap(ns, 2)], ns, 2, Server(map[], map[], [], 0), [Outbound("s-a", "a")], entries)
  }

  const Bare := Server(map["s-a" := "a"], map[], [], 0)
  const Prefixed := Outbound("ps-a", "a")

  lemma RepairedTakes(job: Job, s: Server, h: Outbound)
    requires job == Repaired(job.entries)
    requires s.outbounds.Keys <= {"ps-a"} && s.restarts == 0 && h.tag in {"ps-a", "s-a"} && h.tag !in s.outbounds
    ensures Takes(job.t, job.caps, s, h) && Room(job.t, Cap(job.ns, job.limit), s)
  {
    SubsetSize(Owned(job.t, job.ns, s), {"ps-a"});
  }

  /** The answer to the addition of the prefixed outbound is lost; every call of the rollback
      succeeds. */
  lemma LostAnswerMeets() returns (sc: Script)
    ensures var job := Repaired([Prefixed]);
            && IsRun(job, Bare, sc) && Both(("ps-a", "s-a"), End(job, Bare, sc))
            && sc.added == [] && forall i :: 0 <= i < |sc.restored| ==> sc.restored[i].Ok()
  {
    var job := Repaired([Prefixed]);
    sc := Script(Fine(1), [], Fate(0, true, false), [], Fine(1));
    var s := Bare.WithoutOutbound("s-a");
    assert job.mine[..1] == job.mine && job.mine[..0] == [] && Fine(1)[..0] == [];
    assert Removing(job.boot, Bare, job.mine, sc.removed) == s;
    RepairedTakes(job, s, Prefixed);
    assert job.entries[..0] == [];
    var left := s.WithOutbound(Prefixed);
    assert TakenBack(job, Bare, sc) == left;
    RepairedTakes(job, left, job.mine[0]);
    assert Restoring(job, left, job.mine, []) == Progress(left, true);
    assert Restoring(job, left, job.mine, Fine(1)) == Progress(left.WithOutbound(job.mine[0]), true);
  }

  /** The second addition is refused, and so is the removal of the first in the rollback; no
      answer is lost. */
  lemma RefusedTakeBackMeets() returns (sc: Script)
    ensures var job := Repaired([Prefixed, Outbound("ps-b", "b")]);
            && IsRun(job, Bare, sc) && Both(("ps-a", "s-a"), End(job, Bare, sc))
            && !sc.stop.done && |sc.takenBack| == 1 && !sc.takenBack[0].done
  {
    var job := Repaired([Prefixed, Outbound("ps-b", "b")]);
    var refused := Fate(0, false, false);
    sc := Script(Fine(1), Fine(1), refused, [refused], Fine(1));
    var s := Bare.WithoutOutbound("s-a");
    assert job.mine[..1] == job.mine && job.mine[..0] == [] && Fine(1)[..0] == [];
    assert Removing(job.boot, Bare, job.mine, sc.removed) == s;
    RepairedTakes(job, s, Prefixed);
    assert job.entries[..1] == [Prefixed] && [Prefixed][..0] == [];
    var left := s.WithOutbound(Prefixed);
    assert Adding(job, s, [Prefixed], Fine(1)) == left;
    assert TakingBack(job.boot, left, [Prefixed], [refused]) == left;
    assert TakenBack(job, Bare, sc) == left;
    RepairedTakes(job, left, job.mine[0]);
    assert Restoring(job, left, job.mine, []) == Progress(left, true);
    assert Restoring(job, left, job.mine, Fine(1)) == Progress(left.WithOutbound(job.mine[0]), true);
  }
}
