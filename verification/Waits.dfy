/** The dependency wait of a source and the checks that may replace its tunnels
    (internal/scd/monitor/wait.go, tunnels.go and replace.go; internal/scd/state/wait.go). */
module Waits {
  import opened Namespaces
  import opened SourceRules
  import opened Decide

  const SECOND: int := 1_000_000_000

  /** A dependency of the source: its name and recoverGraceSeconds. */
  datatype Dep = Dep(name: string, grace: nat)

  datatype Health = Healthy | Unhealthy | Unknown

  /** The last known health of a dependency; graceUntil ends its pause after it recovered. */
  datatype DepHealth = DepHealth(state: Option<Health>, recoveredAt: Option<Time>, graceUntil: Option<Time>)

  const UNCHECKED := DepHealth(None, None, None)

  /** Config rejects a dependency that is listed twice. */
  predicate Distinct(deps: seq<Dep>) {
    forall i, j :: 0 <= i < j < |deps| ==> deps[i].name != deps[j].name
  }

  /** One round of dependency health, as applyWaits saw it; a missing one is unknown. */
  datatype Round = Round(at: Time, health: map<string, Health>)
  {
    function Of(name: string): Health {
      if name in health then health[name] else Unknown
    }

    predicate AllHealthy(deps: seq<Dep>) {
      forall d :: d in deps ==> Of(d.name) == Healthy
    }
  }

  // ---- what the rounds of a wait mean

  /** The pause of dependency d after the first n rounds, in a wait that began with round from:
      it starts whenever d turns healthy during the wait, and ends with the next bad round. */
  function Pause(rounds: seq<Round>, from: nat, n: nat, d: Dep): Option<Time>
    requires n <= |rounds|
  {
    if n <= from then None
    else if rounds[n - 1].Of(d.name) != Healthy then None
    else if n - 1 > from && rounds[n - 2].Of(d.name) != Healthy then Some(rounds[n - 1].at + d.grace * SECOND)
    else Pause(rounds, from, n - 1, d)
  }

  /** Dependency d was bad in round m, and healthy in all rounds after it. */
  predicate RecoveredAfter(rounds: seq<Round>, m: nat, n: nat, d: Dep)
    requires m < n <= |rounds|
  {
    && rounds[m].Of(d.name) != Healthy
    && forall i :: m < i < n ==> rounds[i].Of(d.name) == Healthy
  }

  /** A wait that began with round from ended with round n - 1 rightly: every dependency is
      healthy, and each one that was bad during the wait has been healthy ever since its
      recovery, for its whole recoverGraceSeconds. */
  ghost predicate EndedRightly(rounds: seq<Round>, from: nat, n: nat, deps: seq<Dep>) {
    && from < n <= |rounds|
    && rounds[n - 1].AllHealthy(deps)
    && forall d, m: nat :: d in deps && from <= m < n - 1 && RecoveredAfter(rounds, m, n, d) ==>
         rounds[n - 1].at >= rounds[m + 1].at + d.grace * SECOND
  }

  lemma {:induction false} PauseIsFromRecovery(rounds: seq<Round>, from: nat, m: nat, n: nat, d: Dep)
    requires from <= m < n - 1 && n <= |rounds| && RecoveredAfter(rounds, m, n, d)
    ensures Pause(rounds, from, n, d) == Some(rounds[m + 1].at + d.grace * SECOND)
  {
    if m + 2 < n {
      PauseIsFromRecovery(rounds, from, m, n - 1, d);
    }
  }

  /** Every dependency bad at some time of a wait that is healthy at its end has a last bad round:
      EndedRightly speaks of all of them. */
  lemma {:induction false} LastBadRound(rounds: seq<Round>, m: nat, n: nat, d: Dep) returns (last: nat)
    requires m < n - 1 && n <= |rounds| && rounds[m].Of(d.name) != Healthy && rounds[n - 1].Of(d.name) == Healthy
    ensures m <= last < n - 1 && RecoveredAfter(rounds, last, n, d)
    decreases n - m
  {
    if i :| m < i < n - 1 && rounds[i].Of(d.name) != Healthy {
      last := LastBadRound(rounds, i, n, d);
    } else {
      last := m;
    }
  }

  lemma {:induction false} PauseKeeps(rounds: seq<Round>, r: Round, from: nat, n: nat, d: Dep)
    requires n <= |rounds|
    ensures Pause(rounds + [r], from, n, d) == Pause(rounds, from, n, d)
  {
    if n > 0 {
      PauseKeeps(rounds, r, from, n - 1, d);
    }
  }

  /** What applyWaits makes of one dependency. */
  function Judged(dh: DepHealth, d: Dep, st: Health, waiting: bool, now: Time): DepHealth {
    var paused :=
      if st != Healthy then dh.(recoveredAt := None, graceUntil := None)
      else if dh.state != Some(Healthy) && waiting then dh.(recoveredAt := Some(now), graceUntil := Some(now + d.grace * SECOND))
      else dh;
    paused.(state := Some(st))
  }

  predicate InGrace(dh: DepHealth, now: Time) {
    dh.graceUntil.Some? && now < dh.graceUntil.value
  }

  // ---- checks

  /** What happened to the tunnels of the source. */
  datatype Event = CheckPassed(tag: Tag) | CheckFailed(tag: Tag) | WaitEnded | Swapped(tag: Tag)

  /** How many checks of a tunnel failed in a row, since its last success and the end of the
      source's last wait. */
  function Failures(log: seq<Event>, tag: Tag): nat {
    if log == [] then 0
    else
      var n := |log| - 1;
      match log[n]
      case WaitEnded => 0
      case CheckPassed(t) => if t == tag then 0 else Failures(log[..n], tag)
      case CheckFailed(t) => if t == tag then Failures(log[..n], tag) + 1 else Failures(log[..n], tag)
      case Swapped(_) => Failures(log[..n], tag)
  }

  /** The positions of the failed checks of a tunnel from position from on. */
  function FailedFrom(log: seq<Event>, tag: Tag, from: nat): set<nat> {
    set k: nat | from <= k < |log| && log[k] == CheckFailed(tag)
  }

  /** What Failures counts: from some position on there are that many failed checks of the tunnel,
      and neither a success of it nor the end of a wait. */
  lemma {:induction false} FailuresAreInARow(log: seq<Event>, tag: Tag) returns (from: nat)
    ensures from <= |log| && |FailedFrom(log, tag, from)| == Failures(log, tag)
    ensures forall k :: from <= k < |log| ==> log[k] != CheckPassed(tag) && log[k] != WaitEnded
  {
    if log == [] {
      from := 0;
      assert FailedFrom(log, tag, from) == {};
    } else {
      var n := |log| - 1;
      if log[n] == CheckPassed(tag) || log[n] == WaitEnded {
        from := |log|;
        assert FailedFrom(log, tag, from) == {};
      } else {
        from := FailuresAreInARow(log[..n], tag);
        assert FailedFrom(log, tag, from) ==
               FailedFrom(log[..n], tag, from) + if log[n] == CheckFailed(tag) then {n} else {};
      }
    }
  }

  /** Every replacement came after at least limit failed checks in a row. */
  ghost predicate NoneTooEarly(log: seq<Event>, limit: nat) {
    log != [] ==>
      var n := |log| - 1;
      NoneTooEarly(log[..n], limit) && (log[n].Swapped? ==> Failures(log[..n], log[n].tag) >= limit)
  }

  lemma {:induction false} EachInTime(log: seq<Event>, limit: nat, k: nat)
    requires NoneTooEarly(log, limit) && k < |log| && log[k].Swapped?
    ensures Failures(log[..k], log[k].tag) >= limit
  {
    var n := |log| - 1;
    if k < n {
      EachInTime(log[..n], limit, k);
      assert log[..n][..k] == log[..k];
    }
  }

  /** A tunnel was only replaced after at least limit failed checks in a row, all after its last
      success and after the end of the last wait. */
  lemma {:induction false} FailedInARow(log: seq<Event>, limit: nat, k: nat) returns (from: nat)
    requires NoneTooEarly(log, limit) && k < |log| && log[k].Swapped?
    ensures from <= k && |FailedFrom(log[..k], log[k].tag, from)| >= limit
    ensures forall i :: from <= i < k ==> log[i] != CheckPassed(log[k].tag) && log[i] != WaitEnded
  {
    EachInTime(log, limit, k);
    from := FailuresAreInARow(log[..k], log[k].tag);
    forall i | from <= i < k
      ensures log[i] != CheckPassed(log[k].tag) && log[i] != WaitEnded
    {
      assert log[..k][i] == log[i];
    }
  }

  lemma FailuresAppend(log: seq<Event>, e: Event, tag: Tag)
    ensures Failures(log + [e], tag) ==
            match e
            case WaitEnded => 0
            case CheckPassed(t) => if t == tag then 0 else Failures(log, tag)
            case CheckFailed(t) => if t == tag then Failures(log, tag) + 1 else Failures(log, tag)
            case Swapped(_) => Failures(log, tag)
  {
    assert (log + [e])[..|log|] == log;
  }

  lemma NoneTooEarlyAppend(log: seq<Event>, e: Event, limit: nat)
    requires NoneTooEarly(log, limit) && (e.Swapped? ==> Failures(log, e.tag) >= limit)
    ensures NoneTooEarly(log + [e], limit)
  {
    assert (log + [e])[..|log|] == log;
  }

  /** The waits that ended, each with its first and its last round. */
  datatype Ended = Ended(from: nat, n: nat)

  ghost predicate AllEndedRightly(rounds: seq<Round>, ended: seq<Ended>, deps: seq<Dep>) {
    ended != [] ==>
      var n := |ended| - 1;
      AllEndedRightly(rounds, ended[..n], deps) && EndedRightly(rounds, ended[n].from, ended[n].n, deps)
  }

  lemma AllEndedMore(rounds: seq<Round>, ended: seq<Ended>, e: Ended, deps: seq<Dep>)
    requires AllEndedRightly(rounds, ended, deps) && EndedRightly(rounds, e.from, e.n, deps)
    ensures AllEndedRightly(rounds, ended + [e], deps)
  {
    assert (ended + [e])[..|ended|] == ended;
  }

  /** The dependency wait of one source. rounds and ended record the history. */
  class DependencyWait {
    const deps: seq<Dep>
    var known: bool                        // the source has a wait entry
    var since: Option<Time>                // the start of the current wait
    var resetAt: Option<Time>              // the end of the last one
    var health: map<string, DepHealth>
    ghost var rounds: seq<Round>
    ghost var from: nat                    // the round that started the current wait
    ghost var ended: seq<Ended>

    function HealthOf(name: string): DepHealth
      reads this
    {
      if name in health then health[name] else UNCHECKED
    }

    /** The wait state is what the rounds say. */
    ghost predicate WaitValid()
      reads this
    {
      && Distinct(deps)
      && (since.Some? ==> known && from < |rounds|)
      && forall d :: d in deps ==>
           && HealthOf(d.name).graceUntil == (if since.Some? then Pause(rounds, from, |rounds|, d) else None)
           && (rounds != [] ==> HealthOf(d.name).state == Some(rounds[|rounds| - 1].Of(d.name)))
    }

    ghost predicate Valid()
      reads this
    {
      WaitValid() && AllEndedRightly(rounds, ended, deps)
    }

    constructor (deps: seq<Dep>)
      requires Distinct(deps)
      ensures Valid() && this.deps == deps && !known && since == None && rounds == [] && ended == []
    {
      this.deps := deps;
      known, since, resetAt, health := false, None, None, map[];
      rounds, from, ended := [], 0, [];
    }

    /** SourceWaiting, but for a failed check before an apply: in a wait, or its dependencies'
        health unknown since Xray is down. */
    predicate Waiting(xrayDown: bool)
      reads this
    {
      known && (since.Some? || xrayDown)
    }

    /** The loop of applyWaits over the dependencies. */
    method JudgeAll(now: Time, round: Round) returns (bad: bool, inGrace: bool)
      requires Distinct(deps) && round.at == now
      modifies this`health
      ensures forall d :: d in deps ==> HealthOf(d.name) == Judged(old(HealthOf(d.name)), d, round.Of(d.name), since.Some?, now)
      ensures bad <==> !round.AllHealthy(deps)
      ensures inGrace <==> exists d :: d in deps && InGrace(HealthOf(d.name), now)
    {
      bad, inGrace := false, false;
      for i := 0 to |deps|
        invariant forall j :: 0 <= j < i ==>
                    HealthOf(deps[j].name) == Judged(old(HealthOf(deps[j].name)), deps[j], round.Of(deps[j].name), since.Some?, now)
        invariant forall j :: i <= j < |deps| ==> HealthOf(deps[j].name) == old(HealthOf(deps[j].name))
        invariant bad <==> exists j :: 0 <= j < i && round.Of(deps[j].name) != Healthy
        invariant inGrace <==> exists j :: 0 <= j < i && InGrace(HealthOf(deps[j].name), now)
      {
        var d := deps[i];
        var st := round.Of(d.name);
        var dh := Judged(HealthOf(d.name), d, st, since.Some?, now);
        health := health[d.name := dh];
        bad := bad || st != Healthy;
        inGrace := inGrace || InGrace(dh, now);
      }
    }

    /** One dependency after the round. */
    lemma PauseNext(round: Round, d: Dep)
      requires WaitValid() && d in deps
      ensures since.Some? ==>
                Judged(HealthOf(d.name), d, round.Of(d.name), true, round.at).graceUntil == Pause(rounds + [round], from, |rounds| + 1, d)
      ensures since.None? ==> Judged(HealthOf(d.name), d, round.Of(d.name), false, round.at).graceUntil == None
      ensures Pause(rounds + [round], |rounds|, |rounds| + 1, d) == None
    {
      PauseKeeps(rounds, round, from, |rounds|, d);
      PauseKeeps(rounds, round, |rounds|, |rounds|, d);
    }

    /** The last round is judged, but no wait is started or ended by it yet. */
    ghost predicate Taken()
      reads this
    {
      && Distinct(deps) && rounds != [] && (since.Some? ==> known && from < |rounds|)
      && forall d :: d in deps ==>
           && HealthOf(d.name).state == Some(rounds[|rounds| - 1].Of(d.name))
           && HealthOf(d.name).graceUntil == (if since.Some? then Pause(rounds, from, |rounds|, d) else None)
           && Pause(rounds, |rounds| - 1, |rounds|, d) == None
    }

    lemma TakenIsValid()
      requires Taken()
      ensures WaitValid()
    {
    }

    /** A wait starts with the last round. */
    method StartWait(now: Time)
      requires Taken() && since.None? && known
      modifies this`since, this`from
      ensures WaitValid() && since == Some(now) && from == |rounds| - 1
    {
      since, from := Some(now), |rounds| - 1;
    }

    /** The wait ends with the last round. */
    method FinishWait(now: Time)
      requires Taken() && AllEndedRightly(rounds, ended, deps)
      requires since.Some? && EndedRightly(rounds, from, |rounds|, deps)
      modifies this`since, this`resetAt, this`health, this`ended
      ensures Valid() && since == None && resetAt == Some(now)
      ensures ended == old(ended) + [Ended(from, |rounds|)]
    {
      AllEndedMore(rounds, ended, Ended(from, |rounds|), deps);
      ended := ended + [Ended(from, |rounds|)];
      EndWait(now);
    }

    /** Each dependency is judged by the round. */
    method TakeRound(round: Round) returns (bad: bool, inGrace: bool)
      requires Valid()
      modifies this`health, this`rounds
      ensures rounds == old(rounds) + [round] && AllEndedRightly(rounds, ended, deps)
      ensures bad <==> !round.AllHealthy(deps)
      ensures inGrace <==> exists d :: d in deps && InGrace(HealthOf(d.name), round.at)
      ensures Taken()
    {
      forall d | d in deps {
        PauseNext(round, d);
      }
      bad, inGrace := JudgeAll(round.at, round);
      AllEndedKeep(rounds, round, ended, deps);
      rounds := rounds + [round];
    }

    /** applyWaits: a round of dependency health. While Xray is down nothing changes. A wait starts
        with a bad dependency and is over when all are healthy and every pause is over. */
    method ApplyWaits(round: Round, xrayDown: bool) returns (started: bool, over: bool)
      requires Valid()
      modifies this
      ensures Valid() && known
      ensures xrayDown ==> !started && !over && since == old(since) && resetAt == old(resetAt) && rounds == old(rounds) && health == old(health)
      ensures !xrayDown ==> rounds == old(rounds) + [round]
      ensures !xrayDown && !round.AllHealthy(deps) ==> since.Some?
      ensures started <==> old(since).None? && since.Some?
      ensures started ==> since == Some(round.at) && !round.AllHealthy(deps)
      ensures over <==> old(since).Some? && since.None?
      ensures over ==>
                && resetAt == Some(round.at) && round.AllHealthy(deps)
                && ended == old(ended) + [Ended(old(from), |rounds|)] && EndedRightly(rounds, old(from), |rounds|, deps)
      ensures !over ==> ended == old(ended) && resetAt == old(resetAt)
    {
      known, started, over := true, false, false;
      if xrayDown {
        return;
      }
      var bad, inGrace := TakeRound(round);
      if bad && since.None? {
        StartWait(round.at);
        started := true;
      } else if !bad && since.Some? && !inGrace {
        WaitIsOver();
        FinishWait(round.at);
        over := true;
      } else {
        TakenIsValid();
      }
    }

    /** The wait ends: no pause is left. */
    method EndWait(now: Time)
      requires Distinct(deps)
      requires forall d :: d in deps && rounds != [] ==> HealthOf(d.name).state == Some(rounds[|rounds| - 1].Of(d.name))
      modifies this`since, this`resetAt, this`health
      ensures WaitValid() && since == None && resetAt == Some(now)
    {
      since, resetAt := None, Some(now);
      ghost var was := health;
      health := map name | name in health :: health[name].(recoveredAt := None, graceUntil := None);
      forall d | d in deps
        ensures HealthOf(d.name).graceUntil == None && HealthOf(d.name).state == old(HealthOf(d.name)).state
      {
        assert d.name in health <==> d.name in was;
      }
    }

    /** With every dependency healthy and no pause left, the wait ends rightly. */
    lemma WaitIsOver()
      requires Taken() && since.Some? && rounds[|rounds| - 1].AllHealthy(deps)
      requires forall d :: d in deps ==> !InGrace(HealthOf(d.name), rounds[|rounds| - 1].at)
      ensures EndedRightly(rounds, from, |rounds|, deps)
    {
      forall d, m: nat | d in deps && from <= m < |rounds| - 1 && RecoveredAfter(rounds, m, |rounds|, d)
        ensures rounds[|rounds| - 1].at >= rounds[m + 1].at + d.grace * SECOND
      {
        PauseIsFromRecovery(rounds, from, m, |rounds|, d);
      }
    }

    /** freshWait with the answers of a round asked again under the lock, after which Xray counts as
        down or not: a round that is not all healthy makes the source wait, if only because Xray
        is down. */
    method FreshWait(round: Round, xrayDown: bool) returns (waiting: bool, started: bool)
      requires Valid()
      modifies this
      ensures Valid() && ended == old(ended)
      ensures waiting <==> deps != [] && !round.AllHealthy(deps)
      ensures waiting ==> Waiting(xrayDown) && (started <==> !xrayDown && old(since).None?)
      ensures !waiting ==> !started && since == old(since) && known == old(known) && rounds == old(rounds)
    {
      waiting, started := false, false;
      for i := 0 to |deps|
        modifies {}
        invariant waiting <==> exists j :: 0 <= j < i && round.Of(deps[j].name) != Healthy
      {
        if round.Of(deps[i].name) != Healthy {
          waiting := true;
        }
      }
      if waiting {
        var over;
        started, over := ApplyWaits(round, xrayDown);
      }
    }

    /** Every wait that ended, ended rightly. */
    lemma WaitsEndRightly(i: nat)
      requires Valid() && i < |ended|
      ensures EndedRightly(rounds, ended[i].from, ended[i].n, deps)
    {
      AllEndedAt(rounds, ended, deps, i);
    }
  }

  /** The monitors of all sources, none in a wait yet. */
  method NewWaits(depsOf: seq<seq<Dep>>) returns (waits: seq<DependencyWait>)
    requires forall k :: 0 <= k < |depsOf| ==> Distinct(depsOf[k])
    ensures |waits| == |depsOf| && forall k :: 0 <= k < |waits| ==> fresh(waits[k]) && waits[k].Valid() && waits[k].deps == depsOf[k] && !waits[k].known
    ensures forall i, k :: 0 <= i < k < |waits| ==> waits[i] != waits[k]
  {
    waits := [];
    for k := 0 to |depsOf|
      invariant |waits| == k && forall i :: 0 <= i < k ==> fresh(waits[i]) && waits[i].Valid() && waits[i].deps == depsOf[i] && !waits[i].known
      invariant forall i, m :: 0 <= i < m < k ==> waits[i] != waits[m]
    {
      var w := new DependencyWait(depsOf[k]);
      waits := waits + [w];
    }
  }

  lemma {:induction false} AllEndedAt(rounds: seq<Round>, ended: seq<Ended>, deps: seq<Dep>, i: nat)
    requires AllEndedRightly(rounds, ended, deps) && i < |ended|
    ensures EndedRightly(rounds, ended[i].from, ended[i].n, deps)
  {
    if i < |ended| - 1 {
      AllEndedAt(rounds, ended[..|ended| - 1], deps, i);
    }
  }

  // ---- quarantines of a wait

  /** The longest recoverGraceSeconds of the dependencies. */
  function LongestGrace(deps: seq<Dep>): (r: nat)
    ensures forall d :: d in deps ==> d.grace <= r
    ensures deps != [] ==> exists d :: d in deps && d.grace == r
    ensures deps == [] ==> r == 0
  {
    if deps == [] then 0
    else
      var n := |deps| - 1;
      var rest := LongestGrace(deps[..n]);
      assert deps == deps[..n] + [deps[n]];
      if deps[n].grace > rest || n == 0 then deps[n].grace else rest
  }

  /** The quarantines of minutes each without those that started within the longest
      recoverGraceSeconds before now, or later. */
  function Released(quarantine: map<PairKey, Time>, deps: seq<Dep>, now: Time, minutes: nat): map<PairKey, Time> {
    map p | p in quarantine && quarantine[p] - minutes * MINUTE < now - LongestGrace(deps) * SECOND :: quarantine[p]
  }

  /** releaseQuarantine: exactly those are released. */
  method ReleaseQuarantine(sel: State, deps: seq<Dep>, now: Time, minutes: nat) returns (n: nat)
    requires sel.Valid()
    modifies sel`quarantine
    ensures sel.Valid() && n == |old(sel.quarantine)| - |sel.quarantine|
    ensures sel.quarantine == Released(old(sel.quarantine), deps, now, minutes)
  {
    n := sel.ReleaseSince(now - LongestGrace(deps) * SECOND, minutes);
  }

  /** Rounds to come do not matter to a wait that ended. */
  lemma EndedKeeps(rounds: seq<Round>, r: Round, e: Ended, deps: seq<Dep>)
    requires EndedRightly(rounds, e.from, e.n, deps)
    ensures EndedRightly(rounds + [r], e.from, e.n, deps)
  {
    var later := rounds + [r];
    assert forall i :: 0 <= i < |rounds| ==> later[i] == rounds[i];
    forall d, m: nat | d in deps && e.from <= m < e.n - 1 && RecoveredAfter(later, m, e.n, d)
      ensures later[e.n - 1].at >= later[m + 1].at + d.grace * SECOND
    {
      assert RecoveredAfter(rounds, m, e.n, d);
    }
  }

  lemma {:induction false} AllEndedKeep(rounds: seq<Round>, r: Round, ended: seq<Ended>, deps: seq<Dep>)
    requires AllEndedRightly(rounds, ended, deps)
    ensures AllEndedRightly(rounds + [r], ended, deps)
  {
    if ended != [] {
      EndedKeeps(rounds, r, ended[|ended| - 1], deps);
      AllEndedKeep(rounds, r, ended[..|ended| - 1], deps);
    }
  }
}
