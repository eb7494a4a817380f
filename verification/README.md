# scd control loop

A Dafny model of the control loop of scd over one Xray target, with proofs of what it promises
over whole runs. scd keeps the tunnels of subscription sources in a remote Xray: it applies them in
full, replaces, removes and adds single ones, repairs a failing tunnel on an unprefixed outbound and
returns it later, while every call to Xray may fail, may lose its answer, or may find that Xray has
restarted and lost everything.

Check it with `dafny verify dfyconfig.toml`.

## How it is built

| part | modules |
|---|---|
| Xray as a remote server, the capped client, sessions and their history | `XrayApi` |
| tag namespaces and the configuration rules | `Namespaces`, `SourceRules`, `Cycles`, `DependencyRules`, `DependencyOrder` |
| call sequences on Xray | `TunnelCalls`, `RepairCalls`, `ApplyScript`, `ApplyOutbounds`, `ApplyTunnels`, `Orphans` |
| choosing candidates | `Sorting`, `Selection`, `Decide`, `Switches`, `Plans` |
| memory of one target | `TargetState`, `Topology`, `FailureCounts` |
| memory and Xray together | `Slots`, `Repairs`, `FullApply`, `SlotSync`, `SourceSync`, `FailedReplacement` |
| dependency waits and when a replacement may happen | `Waits`, `Checks` |
| everything together, over whole runs | `Daemon` |
| query strings | `Percent`, `PingUrl`, `CandidateQuery` |

`XrayApi.Client` holds the state of Xray and a ghost history of every state it was ever in. Each
call may be carried out and answered, refused, or carried out with its answer lost, and Xray may
restart to its boot state before any call. A *session* is one mutation under the target lock: it
names the namespace it may touch and the pairs of outbounds that must never exist together.
`Client.Valid` says that every state so far kept every cap and that every state of every session,
present or closed, was in its frame. Because every method of the client keeps it, a safety property
holds at every single call and not only at the end of an operation.

`Slots.Sound` is the invariant of one candidate source (wireguard or masque) while the lock is free,
over its state in memory and in Xray. `Daemon.Daemon` puts all sources of a target together; its
`Run` is any number of operations in any order with any inputs and outcomes, the workers of a tick
interleaved freely with each other and with everything else, and the lemmas under "what holds in
every run" state what follows. Each source has a `Waits.DependencyWait`, and a ghost log of its
checks, replacements and ends of waits.

`ApplyScript` is the apply of outbounds as a function of the fates of its calls;
`ApplyOutbounds.ApplyListed` refines it, so what is proved of all scripts holds of every apply.

Go values become Dafny values as follows: a manifest hash is the value it hashes (equal exactly for
equal plans); a tag carries the key it was built from (`Feed.keyOf`); scores are reals; `time.Time`
is nanoseconds as `int`; query strings are bytes. A failing `ToProto` or `Inbound` is a local error
that does nothing.

## Where the code and its comments differ

- `ReplaceSourceTopology` and its comment start the hysteresis over, but `full` writes the selection
  it cloned before back (internal/scd/syncer/wireguard.go:66 and 192), so the counters survive a full
  apply. The model follows the code (`SourceSync.SyncFull`); `SourceSync.CountersSurvive` gives an
  input on which that changes the next decision. The counters still only ever count decisions in a
  row (`Decide.State.Valid`, `SourceSync.Streaks`).
- While one decision is carried out a key may run twice, because a slot whose candidate left the file
  does not reserve its old key: `SlotSync.KeyRunsTwice` is an input. `SlotSync.KeysStayApartExactlyWhen`
  says of every decision when it does not, `SlotSync.NoKeyOfGoneSuffices` what a caller can check
  before, and `SlotSync.DecidedIsKeyed` that no key runs twice afterwards.
- A failed full apply may leave both outbounds of an old tunnel in Xray, when a tunnel on its bare
  outbound is applied again with maxActive of two or more. There are two ways: the rollback cannot
  remove the prefixed outbound (`ApplyScript.RefusedTakeBackMeets`), or the answer to its addition is
  lost, so that the rollback does not even try (`ApplyScript.LostAnswerMeets`); then the bare one is
  restored beside it. `ApplyScript.MeetExactlyWhen` is the exact condition. Up to the restore, and
  without such losses to the end, the two stay apart in every state (`FullApply.XApply`,
  `FullApply.Full`, `Daemon.Daemon.Sync`). The source then has no tunnels in memory.

## Model
| member | source | states |
|---|---|---|
| `Daemon.Daemon.NeverOverCap` | internal/scd/apply/cap.go:22-78 | In every run of all operations, with any outcome of calls and any restarts: once an enabled candidate source owns at most maxActive non-fixed outbounds in Xray it always does, and before that never more than at any earlier time. |
| `Daemon.Daemon.NeverGrowsPastCap` | internal/scd/apply/cap.go:22-78 | From each state of Xray to the next, call by call, the outbounds of a candidate source never grow past maxActive. |
| `Daemon.Daemon.MemoryMirrorsXray` | internal/scd/syncer/wireguard.go:144-341 | Whenever the lock is free and a candidate source has hashes, its outbounds in Xray are the prefixed or unprefixed ones of its in-memory tunnels and its inbounds are theirs; the inbounds are exactly theirs unless Xray restarted since the last full apply. |
| `Daemon.Daemon.TunnelsAreSingle` | internal/scd/monitor/repair.go:318-345 | No in-memory tunnel has both of its outbounds in Xray, and while the source has hashes no two of its tunnels have the same key. |
| `Daemon.Daemon.SlotsAreConserved` | internal/scd/syncer/wireguard.go:354-372 | Tunnels and removed ones without a replacement together never exceed maxActive. |
| `Daemon.Daemon.PortsAreDistinct` | internal/scd/topology/topology.go:78-101 | Any two tunnels of candidate sources of the target have different ports, each in the range of its own source. |
| `Daemon.Daemon.SessionsKeptTheirFrames` | internal/scd/apply/namespace.go:20-33 | Every state of every past mutation differed from where it began only in the namespace it worked in (or from a freshly booted Xray), and kept apart the outbounds it had to. |
| `Daemon.Daemon.Run` | internal/scd/syncer/syncer.go:364-409 | All of the above is kept by any number of syncs, ticks with checks, replacements, repairs and rejoins, waits that start and end with their quarantine releases and counter resets, orphan removals, restarts and syncs of other sources, in any order. |
| `Daemon.Daemon.constructor` | internal/scd/state/state.go:334-349 | An accepted configuration starts in a valid state, with no source waiting, whatever Xray holds. |
| `Daemon.Daemon.Sync` | internal/scd/syncer/wireguard.go:32-103 | A sync of one source leaves what is remembered of all others as it was; the source has hashes after it exactly when it succeeded; and a full apply does what SyncFull states. |
| `Daemon.Daemon.ReplaceFailedTunnel` | internal/scd/monitor/replace.go:34-180 | Only a tunnel whose last check made it pending is tried, only its own source changes, and how is one of the outcomes Outcome describes; nothing is judged while the source waits, without the inbound in Xray or with a dependency that is not healthy when asked again, which makes the source wait; exactly a replacement joins the history. |
| `Daemon.Daemon.NoPrematureReplacement` | internal/scd/monitor/tunnels.go:250-296 | In every run a tunnel is replaced only after at least replaceAfterFailures failed checks in a row, all later than its last success and the end of its source's last wait. |
| `Daemon.Daemon.CountersAreFailures` | internal/scd/monitor/tunnels.go:250-296 | FailuresInRow of a tunnel in memory never exceeds the failed checks in a row the history shows, across replacements, repairs, syncs and full applies. |
| `Daemon.Daemon.WaitsEndRightly` | internal/scd/monitor/wait.go:170-268 | Every wait that ended did so with every dependency healthy and each one that was bad during it healthy for its whole recoverGraceSeconds since it recovered. |
| `Daemon.Daemon.BeginTick` | internal/scd/monitor/wait.go:127-268 | A round of dependency health before the checks: a wait that starts ends exactly the quarantines within the longest grace, a wait that ends sets every counter of the source to zero, anything else changes neither. |
| `Daemon.Daemon.Check` | internal/scd/monitor/tunnels.go:229-374 | A check joins the history and becomes pending only when it failed and the source does not wait. |
| `Daemon.Daemon.StartWaiting` | internal/scd/monitor/wait.go:294-318 | A dependency found not healthy under the lock makes the source wait, if only because Xray counts as down, and may end quarantines. |
| `Daemon.Daemon.Move` | internal/scd/monitor/repair.go:92-241 | During a repair or a rejoin no tunnel of the source has both outbounds in any state, even when answers are lost and rollbacks fail; only its own source is touched. |
| `Daemon.Daemon.RemoveOrphans` | internal/scd/syncer/syncer.go:509-594 | Orphan removal keeps every enabled source at rest and, when it works, leaves exactly the states of enabled sources in memory. |
| `Daemon.Daemon.SyncPlans` | internal/scd/syncer/syncer.go:763-846 | Skipped only if the saved hashes are those of the plans and, as far as Xray could be asked, it lost none of their resources; success leaves exactly the tunnels and their hashes; all candidate sources stay at rest. |
| `Daemon.Daemon.Restart` | internal/scd/monitor/repair.go:287-314 | A restart of Xray between operations keeps every source at rest. |
| `Daemon.OtherResting` | internal/scd/apply/namespace.go:20-33 | Work in a namespace that shares no tag with a source keeps that source sound, also across a restart. |
| `Daemon.OthersOutbounds` | internal/scd/apply/namespace.go:20-33 | Outside the scope of an operation exactly the outbounds it found, or those Xray boots with, are there. |
| `Daemon.CapsFrom` | internal/scd/apply/cap.go:55-67 | Every source with maxActive is capped. |
| `Daemon.Daemon.OthersRest` | internal/scd/apply/namespace.go:20-33 | All other candidate sources are at rest after one source was worked on. |
| `XrayApi.SessionNeverBoth` | internal/scd/monitor/repair.go:332-345 | What a session keeps apart is apart in each of its states. |
| `Checks.NoteCheck` | internal/scd/monitor/tunnels.go:229-374 | Remembering a check changes only its own source and keeps it at rest; a success sets the counter to zero, a failure adds at most one. |
| `Checks.CheckLogged` | internal/scd/monitor/tunnels.go:250-296 | Counters and pending replacements stay within the failed checks in a row when a check joins the history. |
| `Checks.SwapLogged` | internal/scd/monitor/tunnels.go:288-296 | A pending tunnel may be replaced: enough checks failed in a row. |
| `Checks.ResetCounts` | internal/scd/monitor/wait.go:233-246 | At the end of a wait every counter of the source is zero and nothing else of it changed. |
| `Checks.ReleaseFor` | internal/scd/monitor/wait.go:270-292 | Of the source only the quarantines within the longest grace go; it stays at rest. |
| `FailureCounts.KeptOrIdle` | internal/scd/state/state.go:455-492 | Tunnels that were there or are new and idle count no more failures than before. |
| `FailureCounts.UpdatedCounts` | internal/scd/monitor/tunnels.go:174-183 | Rewriting one monitor changes the count of its tag only. |
| `XrayApi.Client.AddOutbound` | internal/scd/apply/cap.go:69-78 | A duplicate tag fails; a refused, failed or lost call leaves Xray as it was or with the one outbound, which had room with every source that owns it; a refusal names a source without room; every step keeps every cap. |
| `XrayApi.Client.CheckCap` | internal/scd/apply/cap.go:22-37 | Nil only if the source has room in Xray, ErrCapReached only if it has none; the fixed outbounds do not count. |
| `XrayApi.Client.CheckCaps` | internal/scd/apply/cap.go:69-78 | Nil only if every capped source that owns the tag has room. |
| `XrayApi.Client.RemoveOutbound` | internal/scd/xrayapi/client.go:32-40 | An unknown tag succeeds; a failed call may have had its effect. |
| `XrayApi.Client.AddInbound` | internal/scd/xrayapi/client.go:43-50 | A duplicate tag fails; a failed call may have had its effect. |
| `XrayApi.Client.RemoveInbound` | internal/scd/xrayapi/client.go:43-50 | An unknown tag fails; a failed call may have had its effect. |
| `XrayApi.Client.AddRule` | internal/scd/xrayapi/client.go:53-61 | The rule is appended; a failed call may have had its effect. |
| `XrayApi.Client.RemoveRule` | internal/scd/xrayapi/client.go:53-61 | All rules of the tag go, an unknown tag succeeds, an empty one fails. |
| `XrayApi.Client.ListOutbounds` | internal/scd/xrayapi/client.go:126-131 | A list that succeeds is exactly what Xray holds, each tag once. |
| `XrayApi.Client.ListInbounds` | internal/scd/xrayapi/client.go:147-152 | A list that succeeds is exactly what Xray holds, each tag once. |
| `XrayApi.Client.ListRules` | internal/scd/xrayapi/client.go:168-180 | A list that succeeds is exactly the rules of Xray. |
| `XrayApi.Client.Begin` | internal/scd/state/state.go:574-587 | A mutation under the lock opens a session; the session before it is closed with its frame kept in all its states. |
| `XrayApi.AddWithinCaps` | internal/scd/apply/cap.go:48-78 | An outbound added where every source that owns its tag has room keeps every cap. |
| `XrayApi.HistoryAt` | internal/scd/apply/namespace.go:20-33 | Every state of a closed session was in its frame. |
| `XrayApi.RestOfRules` | internal/scd/apply/routing.go:29-89 | Adding or removing a rule of a scope changes nothing outside the scope, order included. |
| `TunnelCalls.RemoveTunnel` | internal/scd/apply/tunnel.go:50-62 | On success rule, both outbounds and the inbound are gone and nothing else changed; on failure nothing was added but the rule, and a failed outbound removal puts the rule back. |
| `TunnelCalls.ReplaceTunnel` | internal/scd/apply/tunnel.go:82-105 | Remove before add: the new prefixed outbound never meets either old one; a local build error does nothing; success without a restart is exactly the exchange. |
| `TunnelCalls.AddTunnel` | internal/scd/apply/tunnel.go:113-137 | Success adds exactly the outbound, the inbound and the rule; after a failure whose rollback worked no outbound of the tunnel is left, even if the failed answer was lost. |
| `TunnelCalls.Detach` | internal/scd/apply/tunnel.go:50-62 | The rule is removed best effort and restored when an outbound cannot be removed. |
| `TunnelCalls.OutboundTagsArePair` | internal/scd/apply/tunnel.go:66-74 | The tags to remove are exactly the prefixed and the unprefixed one. |
| `TunnelCalls.RemoveOutbounds` | internal/scd/apply/tunnel.go:53-60 | Outbounds go in order up to the first error; success removes exactly the given tags. |
| `RepairCalls.Repair` | internal/scd/monitor/repair.go:318-330 | Never both outbounds; when added is reported exactly the unprefixed one of the two is there, success adds its rule. |
| `RepairCalls.Rejoin` | internal/scd/monitor/repair.go:430-457 | Never both outbounds; success leaves exactly the prefixed one; a rollback that worked puts exactly the unprefixed one back; when the rollback cannot remove the prefixed one the unprefixed one is not there and the rejoin is stuck. |
| `RepairCalls.RemoveCurrent` | internal/scd/monitor/repair.go:332-345 | The current outbound goes before anything is added; when it cannot be removed the rule is restored. |
| `RepairCalls.HasInbound` | internal/scd/monitor/repair.go:274-285 | Exactly whether Xray has the inbound. |
| `RepairCalls.BackOut` | internal/scd/monitor/repair.go:448-455 | The rollback of a rejoin adds the unprefixed outbound only after the prefixed one is gone. |
| `ApplyOutbounds.Outbounds` | internal/scd/apply/outbounds.go:29-118 | Success: the owned non-fixed outbounds are exactly the entries, all others untouched, and the report says so; failure: if no answer was lost, no rollback call failed, Xray did not restart and the start was within the caps, Xray is exactly as before; a fixed tag among the entries means no call at all. Pairs the session keeps apart are apart in every state before the restore, and to the end unless an answer was lost or a rollback call failed, the limit is not one and a pair was to meet. |
| `ApplyOutbounds.ApplyListed` | internal/scd/apply/outbounds.go:60-127 | Every apply, with any fate of its calls, is a run of the script of ApplyScript and leaves in Xray exactly what the script says. |
| `ApplyScript.MeetExactlyWhen` | internal/scd/apply/outbounds.go:60-127 | Some run of an apply ends with both outbounds of a tunnel in Xray exactly when the tunnel runs on its bare outbound, its candidate is applied again and the limit is not one. |
| `ApplyScript.MetOnlyIf` | internal/scd/apply/outbounds.go:60-127 | No run, whatever is lost, refused or restarted, ends with both unless that condition holds. |
| `ApplyScript.Meeting` | internal/scd/apply/outbounds.go:75-127 | If it holds there is such a run, without any restart. |
| `ApplyScript.MetIf` | internal/scd/apply/outbounds.go:116-127 | If the prefixed outbound is left over when the restore begins and the bare one is restored within the caps, both are there at the end. |
| `ApplyScript.StoppedApart` | internal/scd/apply/outbounds.go:60-97 | Until the rollback the two never meet. |
| `ApplyScript.ApartWithoutLosses` | internal/scd/apply/outbounds.go:99-118 | Without a lost addition and with every addition taken back they do not meet at the end either. |
| `ApplyScript.RestoringAlone` | internal/scd/apply/outbounds.go:120-127 | With a limit of one an outbound is restored only where the source has none. |
| `ApplyScript.LostAnswerMeets` | internal/scd/apply/outbounds.go:82-85 | A run that ends with both although every call of its rollback succeeds: the lost addition is not among those taken back. |
| `ApplyScript.RefusedTakeBackMeets` | internal/scd/apply/outbounds.go:103-106 | A run that ends with both although no answer is lost: the removal of an addition is refused. |
| `ApplyOutbounds.RestoreBackups` | internal/scd/apply/outbounds.go:120-129 | Backups are put back in removal order; where all of them fit the caps beside what there is, the cap check refuses none and exactly they are added; no pair meets that is not within reach. |
| `ApplyOutbounds.RollBack` | internal/scd/apply/outbounds.go:99-118 | Additions are taken back last first, then the backups restored: the state before. |
| `ApplyOutbounds.Exchange` | internal/scd/apply/outbounds.go:45-97 | What was removed and added so far, at every point the apply may fail. |
| `ApplyOutbounds.DoneReports` | internal/scd/apply/outbounds.go:45-97 | Removed, Added and Replaced are the sizes of the sets DeletedIDs and AppliedIDs describe. |
| `ApplyOutbounds.ReplacedCount` | internal/scd/apply/outbounds.go:80-97 | Replaced counts exactly the entries whose tag was removed before. |
| `ApplyOutbounds.BackupsRestore` | internal/scd/apply/outbounds.go:120-129 | Putting all backups back gives the map they were taken from. |
| `ApplyOutbounds.FindConflict` | internal/scd/apply/outbounds.go:29-44 | The first entry whose tag is fixed. |
| `ApplyTunnels.Inbounds` | internal/scd/apply/inbounds.go:27-94 | Success: the owned inbounds are exactly those of the tunnels and nothing else changed; after a restart on the way no others are left. |
| `ApplyTunnels.Routing` | internal/scd/apply/routing.go:29-89 | Success: the rules are those outside the namespace, in order, followed by those of the tunnels. |
| `ApplyTunnels.DropCovered` | internal/scd/apply/routing.go:45-62 | Removing every owned tag that was listed leaves exactly the rules outside the namespace. |
| `Orphans.RemoveOrphans` | internal/scd/apply/namespace.go:49-115 | Success leaves exactly the fixed, owned and untagged resources of the enabled kinds and returns exactly the outbound tags left; only orphans are reported removed. |
| `Orphans.OrphansAreCovered` | internal/scd/apply/namespace.go:56-66 | The closure of RemoveOrphans and the scope of its session are the same set of resources. |
| `FullApply.ApplyPlans` | internal/scd/syncer/syncer.go:828-846 | Every plan is applied also after a failed one; if none failed Xray holds nothing else of the source and, without a restart, exactly the tunnels; pairs stay apart as Outbounds states. |
| `FullApply.Full` | internal/scd/syncer/wireguard.go:144-195 | A full apply that works runs exactly the best ranked of the candidates that may be chosen (outside quarantine, the kept transport of a key), one per key and as many as fit, slot i on the i-th port; otherwise the source has no tunnels and hashes. The source is sound after it and its selection is the one given. The old tunnels never have both outbounds, up to the restore at least, and to the end unless it failed, something was lost and a tunnel on its bare outbound may have been picked again. |
| `FullApply.XApply` | internal/scd/syncer/syncer.go:828-846 | In Xray: no old tunnel has both outbounds in any state before the restore, nor after it unless the apply failed, an answer was lost or a rollback call failed, the limit is not one and a tunnel on its bare outbound was applied again. |
| `FullApply.RepickedMay` | internal/scd/syncer/wireguard.go:144-181 | That a tunnel is applied again can be known before: it is on its bare outbound, in the file and outside quarantine. |
| `Plans.BestAreMaximal` | internal/scd/syncer/wireguard.go:144-181 | What a full apply runs has distinct keys, all outside quarantine, and is short of maxActive only when every key of the file outside quarantine runs. |
| `SourceSync.SyncFull` | internal/scd/syncer/wireguard.go:144-195 | A sync by full apply runs the best candidates of its file and keeps the hysteresis counters and quarantines of the source; its old tunnels stay apart as Full states, in every state of the sync. |
| `SourceSync.CountersSurvive` | internal/scd/syncer/wireguard.go:184-193 | Kept counters matter: with one win counted before a full apply the next decision switches, with fresh counters it would keep the slot. |
| `FullApply.AppliedSound` | internal/scd/syncer/wireguard.go:174-194 | After an apply that succeeded memory mirrors Xray, no tunnel has both outbounds and no key runs twice. |
| `FullApply.PruneNoReplacement` | internal/scd/syncer/wireguard.go:354-372 | Keeps the active tags and of the others as many as there are empty slots, all of them if they fit. |
| `FullApply.DroppedConserved` | internal/scd/state/state.go:494-506 | Dropping all tunnels keeps the number of slots. |
| `FullApply.FinishFailed` | internal/scd/syncer/wireguard.go:184-193 | A failed apply leaves no tunnel, no topology and no hashes, and the file and selection of the sync. |
| `FullApply.AppliedSingle` | internal/scd/syncer/wireguard.go:174-181 | After a successful apply no unprefixed outbound of its tunnels is in Xray. |
| `Plans.KeptTransports` | internal/scd/syncer/wireguard.go:154-160 | Exactly the keys of eligible active candidates with a transport, each with the transport of one of them. |
| `Plans.Eligible` | internal/scd/syncer/wireguard.go:146-166 | The entries outside quarantine; of a key whose eligible active tunnel has a transport, only that transport. |
| `Plans.BuildTopology` | internal/scd/topology/topology.go:78-101 | Slot i runs the i-th of the first candidates of each key in rank order on port start + i, as many as fit; no tag or key twice. |
| `Plans.RankEntries` | internal/scd/selection/selection.go:111-152 | The ranking of entries is that of their candidates, and loses none. |
| `Plans.PickEntries` | internal/scd/selection/selection.go:156-171 | The picked entries are the first of each key, as many as fit. |
| `Topology.NewTunnel` | internal/scd/topology/topology.go:105-129 | A tunnel of an entry whose tag carries the source id has all its tags in the source's namespace. |
| `Topology.TunnelTagsCovered` | internal/scd/topology/topology.go:105-129 | All five tags of a tunnel belong to its source and to nothing fixed. |
| `Slots.RemoveSlot` | internal/scd/syncer/wireguard.go:214-236 | A removal keeps the source sound; a failure empties its hashes and the slot. |
| `Slots.ReplaceSlot` | internal/scd/syncer/wireguard.go:237-256 | A replacement keeps the source sound in every state of its session; a failure empties its hashes and the slot. |
| `Slots.FillSlot` | internal/scd/syncer/wireguard.go:314-336 | Filling a slot keeps the source sound; a failure empties its hashes and nothing else. |
| `Slots.SlotSound` | internal/scd/state/state.go:455-492 | Giving up a slot keeps mirror, ports, slot count and the rest of the invariant. |
| `Slots.SlotMirrored` | internal/scd/state/state.go:455-492 | Whatever a successful slot operation did to Xray, memory after ReplaceSourceTunnel mirrors it. |
| `Slots.FillConserved` | internal/scd/syncer/wireguard.go:321-335 | A filled slot takes one removed tag off the list if there is one: the number of slots is kept. |
| `Slots.NewTagsAreFree` | internal/scd/config/rules.go:262-268 | The tags of a candidate that is not active have nothing to do with those of active tunnels. |
| `Slots.Seat` | internal/scd/syncer/wireguard.go:321-335 | next joins memory and exactly one removed tag without a tunnel, its own first, leaves the list. |
| `Slots.Forget` | internal/scd/syncer/wireguard.go:217-231 | Memory after a removal: the tag is listed as without replacement exactly when Xray carried it out. |
| `SlotSync.FreePort` | internal/scd/syncer/wireguard.go:309-312 | The lowest free port; with fewer than maxActive tunnels it is one of the first maxActive of the range. |
| `SlotSync.FewPorts` | internal/scd/syncer/wireguard.go:309-312 | n ports that are all taken need n tunnels. |
| `SlotSync.Fill` | internal/scd/syncer/wireguard.go:285-341 | Fill ends; without a failure all slots are taken or no candidate outside quarantine with a free tag and key is left. |
| `SlotSync.FillNext` | internal/scd/syncer/wireguard.go:305-336 | One more tunnel, of the chosen candidate. |
| `SlotSync.CarryOut` | internal/scd/syncer/wireguard.go:209-258 | The actions are carried out in order up to the first failure, which empties the hashes; otherwise the slots hold exactly what the actions say. |
| `SlotSync.SlotsAreValid` | internal/scd/syncer/wireguard.go:114-138 | While the source has hashes its slots meet what a decision needs: distinct tags and keys among those in the file. |
| `SlotSync.DecidedIsKeyed` | internal/scd/syncer/wireguard.go:199-277 | After a decision was carried out every tunnel is in the file and no key runs twice. |
| `SlotSync.KeysStayApartExactlyWhen` | internal/scd/syncer/wireguard.go:209-258 | While a decision is carried out, action by action, no key runs twice exactly when no action replaces with the key of a later slot whose candidate left the file. |
| `SlotSync.KeyRunsTwice` | internal/scd/syncer/wireguard.go:209-258 | An input on which a key runs twice: slots A and B left the file, C has the key of B and takes the slot of A while B still runs. |
| `SlotSync.NoKeyOfGoneSuffices` | internal/scd/syncer/wireguard.go:209-258 | Known before the decision: if no candidate that is not active has the key of an active one that left the file, no key ever runs twice. |
| `SlotSync.NewKeyIsFree` | internal/scd/selection/decide.go:127-207 | A replacing candidate has another key than every later slot that is still in the file. |
| `SlotSync.SameKeyMeans` | internal/scd/syncer/wireguard.go:209-258 | Two tags of one key in the slots mean such a replacement. |
| `SlotSync.ReplacementIsFree` | internal/scd/syncer/wireguard.go:237-256 | A replacing candidate holds no slot when its turn comes. |
| `SlotSync.HolderOf` | internal/scd/syncer/wireguard.go:209-258 | Every tag held after some actions is an original of a slot whose turn has not come or was kept, or was put there. |
| `SlotSync.FilledIsKeyed` | internal/scd/syncer/wireguard.go:285-304 | Fill never runs a key twice. |
| `SourceSync.SyncSource` | internal/scd/syncer/wireguard.go:32-103 | Single slots change only for a source that has state, hashes and the same configuration; the hysteresis history only grows by decisions; a full apply does what SyncFull states. |
| `SourceSync.DecideSlots` | internal/scd/syncer/wireguard.go:199-277 | A decision on the slots as memory and the file show them, carried out and saved; hashes are kept exactly when all went well; a better switch comes only after its pair won the last switchConfirmChecks decisions of the source, over all its syncs. |
| `SourceSync.MissingIn` | internal/scd/syncer/syncer.go:869-910 | Without an error or a restart it tells exactly whether a managed resource, in neither of its forms, is missing in Xray; an error counts as none missing. |
| `SourceSync.NeedsFull` | internal/scd/syncer/wireguard.go:87-99 | When no full apply is needed the source has hashes, the same configuration and, as far as Xray could be asked, all its resources. |
| `FailedReplacement.ReplaceFailed` | internal/scd/monitor/replace.go:34-180 | A tunnel is judged only with hashes, without a wait and with its inbound in Xray; every outcome with its whole effect on the source. |
| `FailedReplacement.Judge` | internal/scd/monitor/replace.go:95-170 | The pair goes into quarantine; the first candidate of the file that is not active, of a free key and outside quarantine takes slot and port, all other tunnels as they were; or there is none and that is noted; or the slot stays empty without hashes. |
| `FailedReplacement.NoteNoCandidate` | internal/scd/monitor/replace.go:113-143 | Noting a tunnel without replacement keeps the slot count. |
| `Repairs.RepairTunnel` | internal/scd/monitor/repair.go:92-241 | A tunnel whose unprefixed outbound was added is recorded on it, also when its rule is missing; nothing is done exactly when there is no such tunnel or it is already on its unprefixed one; a lost inbound empties the hashes. |
| `Repairs.RejoinTunnel` | internal/scd/monitor/repair.go:371-426 | A rejoin that worked or is stuck is recorded on the prefixed outbound, any other failure on the unprefixed one; when stuck the unprefixed one is not in Xray; nothing is done exactly when no such tunnel is on its unprefixed one. |
| `Repairs.RepairNoted` | internal/scd/monitor/repair.go:138-241 | A repair whose add was answered is recorded on the unprefixed outbound, any other on the outbound it had, degraded either way. |
| `Repairs.RejoinFound` | internal/scd/monitor/repair.go:371-426 | What a rejoin did is what is recorded. |
| `Repairs.XRepair` | internal/scd/monitor/repair.go:138-152 | hasInbound and the repair in one session keep the source sound and its tunnels single. |
| `Repairs.XRejoin` | internal/scd/monitor/repair.go:371-400 | The rejoin in one session keeps the source sound and its tunnels single. |
| `Repairs.TwinsAreApart` | internal/scd/monitor/repair.go:332-345 | The outbounds of one tunnel are never those of another. |
| `Repairs.UpdatedSound` | internal/scd/monitor/tunnels.go:174-183 | Recording a tunnel on another of its outbounds changes nothing the invariant speaks of. |
| `TargetState.Target.ReplaceSourceTopology` | internal/scd/state/state.go:406-447 | The topology with idle monitors in its order; failing-since survives unless Xray lost the source; quarantine and no-replacement survive; other sources keep their place. |
| `TargetState.Target.ReplaceSourceTunnel` | internal/scd/state/state.go:455-492 | All tunnels but the old one stay as they are, next is idle, in port order; hashes only for kinds that had one; the old tag leaves the list; no tunnel is missing and other sources do not change. |
| `TargetState.Target.DropSourceTunnels` | internal/scd/state/state.go:494-506 | No tunnel, topology or hash of the source is left, everything else of it is. |
| `TargetState.Target.ResetSourceHashes` | internal/scd/state/state.go:508-514 | Only the hashes go. |
| `TargetState.Target.DropSource` | internal/scd/state/state.go:516-538 | Nothing of the source is left. |
| `TargetState.Target.ReplaceTunnels` | internal/scd/state/state.go:540-560 | The block of one source is replaced in place, sorted by source, the others in their order. |
| `TargetState.Target.StillValid` | internal/scd/state/state.go:276-320 | If only one source changed and its tunnels mirror its topology, the whole target is valid. |
| `TargetState.Spliced` | internal/scd/state/state.go:542-560 | The loop of replaceTunnels keeps the order by source and changes one block. |
| `TargetState.AllSeated` | internal/scd/state/state.go:459-491 | Every tunnel of the new topology is found: none is nil. |
| `TargetState.ByPort` | internal/scd/state/state.go:479 | The tunnels of a source in port order, none lost. |
| `TargetState.ExceptKeeps` | internal/scd/state/state.go:465-470 | Exactly the tunnel with the old id is left out. |
| `TargetState.BlockAmongOthers` | internal/scd/state/state.go:542-560 | Taking one source out does not change the block of another. |
| `TargetState.Target.UpdateTunnel` | internal/scd/monitor/tunnels.go:174-183 | Only the named tunnel of the source changes, and stays one of its topology. |
| `Selection.Rank` | internal/scd/selection/selection.go:111-152 | Two stable sorts: by strategy, then by group place and priority. |
| `Selection.RankKeepsAll` | internal/scd/selection/selection.go:111-152 | Rank is a permutation. |
| `Selection.GroupsAreConsecutive` | internal/scd/selection/selection.go:126-152 | Candidates of one key with a transport follow each other, by priority. |
| `Selection.GroupsKeepStrategyOrder` | internal/scd/selection/selection.go:126-152 | Groups stand at the place of their best-ranked member; everything else keeps the strategy order. |
| `Selection.CompareByIsOrder` | internal/scd/selection/selection.go:76-125 | Each strategy's comparison is a total preorder. |
| `Selection.Positions` | internal/scd/selection/selection.go:126-140 | The place of a candidate is that of the first of its group. |
| `Selection.Pick` | internal/scd/selection/selection.go:156-171 | The first candidate of every key, at most maxActive. |
| `Selection.PickIsMaximal` | internal/scd/selection/selection.go:156-171 | Distinct keys, at most maxActive, and short only when every key is there. |
| `Selection.FirstOfKeysCovers` | internal/scd/selection/selection.go:156-171 | One candidate of each key. |
| `Sorting.StableOrderSorts` | internal/scd/selection/selection.go:111-152 | The stable sort orders, equals in their original order. |
| `Decide.DecisionIsSound` | internal/scd/selection/decide.go:113-207 | One action per slot; what the slots then hold has distinct tags and keys; only candidates of the file that were not active and not in quarantine take a slot; Keep only for present tags; a better switch never goes to another transport of the same key. |
| `Decide.RemovedOnlyWithoutChoice` | internal/scd/selection/decide.go:150-166 | A slot is removed only when every candidate outside quarantine has its tag or key in use. |
| `Decide.State.Decide` | internal/scd/selection/decide.go:113-207 | The decision relation holds, counters are exactly this decision's wins, expired quarantines go, and a better switch comes only after the pair won the last switchConfirmChecks decisions in a row. |
| `Decide.State.QuarantinePair` | internal/scd/selection/decide.go:53-59 | The pair is in quarantine for the minutes from now. |
| `Decide.State.ReleaseSince` | internal/scd/selection/decide.go:61-73 | Exactly the quarantines that started at the time or later end, and are counted. |
| `Decide.Replacement` | internal/scd/selection/decide.go:75-84 | The first candidate that may take a slot, none only if none may. |
| `Decide.FindBetter` | internal/scd/selection/decide.go:168-207 | The first challenger: a competitor that is the first of its key and beats the active one. |
| `Decide.FirstPassAssigns` | internal/scd/selection/decide.go:127-166 | After the refill pass what slots hold is exclusive in tags and keys. |
| `Decide.SecondPassAssigns` | internal/scd/selection/decide.go:168-207 | The switch pass changes only healthy kept slots, to challengers confirmed often enough, and stays exclusive. |
| `Decide.CountsAreWins` | internal/scd/selection/decide.go:168-207 | A counter after a decision is one more than before, below the threshold, and of a pair that won now. |
| `Decide.StreakGrows` | internal/scd/selection/decide.go:168-207 | A pair that wins again extends its streak by one. |
| `Switches.SwitchingEnds` | internal/scd/selection/decide.go:168-231 | On a fixed file whose candidates all carry the metric any number of decisions replaces at most slots times candidates. |
| `Switches.LevelDrops` | internal/scd/selection/decide.go:211-231 | A better switch strictly lowers how many candidates a slot could still be improved by. |
| `Waits.DependencyWait.ApplyWaits` | internal/scd/monitor/wait.go:168-268 | Nothing changes while Xray is down; otherwise a bad dependency starts a wait and never ends one, and a wait ends only rightly. |
| `Waits.DependencyWait.FreshWait` | internal/scd/monitor/wait.go:294-318 | A dependency that is not healthy makes the source wait, also when asking found Xray down and no wait starts. |
| `Waits.DependencyWait.TakeRound` | internal/scd/monitor/wait.go:192-222 | After a round every dependency's pause is the one the history of rounds defines. |
| `Waits.PauseIsFromRecovery` | internal/scd/monitor/wait.go:207-222 | The pause of a dependency that was bad and then stayed healthy ends recoverGraceSeconds after its first healthy round. |
| `Waits.LastBadRound` | internal/scd/monitor/wait.go:170-180 | A dependency bad at some time of a wait and healthy at its end has a last bad round. |
| `Waits.FailuresAreInARow` | internal/scd/monitor/tunnels.go:250-296 | The failures counted are all after the last success and the last end of a wait. |
| `Waits.EachInTime` | internal/scd/monitor/tunnels.go:288-296 | The bound holds at every replacement of a log. |
| `Waits.FailedInARow` | internal/scd/monitor/tunnels.go:250-296 | Before every replacement of a history in time there are enough failed checks in a row. |
| `Waits.LongestGrace` | internal/scd/monitor/wait.go:277-280 | The longest grace of the dependencies, 0 without any. |
| `Waits.ReleaseQuarantine` | internal/scd/monitor/wait.go:270-292 | Exactly the quarantines started within the longest recoverGraceSeconds before now end. |
| `SourceRules.CheckSources` | internal/scd/config/rules.go:203-227 | No issue exactly when the subscription is accepted. |
| `SourceRules.CheckTargetSource` | internal/scd/config/rules.go:233-280 | No issue exactly when the rules of one source hold. |
| `SourceRules.CheckFixed` | internal/scd/config/rules.go:268-280 | No issue exactly when no fixed tag lies in the source's namespace. |
| `SourceRules.NamespacesDisjoint` | internal/scd/config/rules.go:203-280 | In an accepted configuration no tag of any kind belongs to two sources. |
| `SourceRules.FixedNotOwned` | internal/scd/config/rules.go:268-280 | No fixed tag belongs to an enabled source. |
| `SourceRules.PrefixedIsNotBare` | internal/scd/config/rules.go:262-268 | With an observatory prefix no unprefixed tag of a source is the prefixed form of any tag. |
| `SourceRules.PortsDisjoint` | internal/scd/config/rules.go:212-227 | A port lies in the range of at most one source. |
| `Cycles.FindCycles` | internal/scd/config/rules.go:424-473 | Every list returned is a cycle that starts with its first node in the order, no list twice; none is returned exactly when the graph has no cycle; it ends. |
| `Cycles.RotatedFormIsUnique` | internal/scd/config/rules.go:454-465 | Two rotations of one cycle that start with its first node are the same. |
| `Cycles.NoCycleAmongFinished` | internal/scd/config/rules.go:442-467 | Nodes finished after all their successors lie on no cycle. |
| `Cycles.Search.Visit` | internal/scd/config/rules.go:442-467 | An unseen node and all it leads to are done, the path is as before, and while no cycle was found all successors were done first. |
| `Cycles.Search.Report` | internal/scd/config/rules.go:450-465 | An edge back into the path closes a cycle, reported once. |
| `Cycles.Dependencies` | internal/scd/config/rules.go:586-601 | Exactly what the source depends on over any number of edges, itself aside, each once. |
| `Cycles.NothingDependsOnItself` | internal/scd/config/rules.go:584-601 | Without cycles nothing depends on itself: dependencies is the whole closure. |
| `DependencyRules.CheckAllCycles` | internal/scd/config/rules.go:399-420 | Neither check reports a cycle exactly when the graph of all sources of all subscriptions together has none. |
| `DependencyRules.CheckAcross` | internal/scd/config/rules.go:482-582 | Given no cycle within a subscription, the check across them accepts exactly the acyclic graphs, also when it is skipped. |
| `DependencyRules.CheckInside` | internal/scd/config/rules.go:369-394 | checkCycles of all subscriptions accepts exactly when no cycle stays in one. |
| `DependencyRules.BuildLocal` | internal/scd/config/rules.go:310-367 | The edges are exactly the dependencies on other known sources. |
| `DependencyRules.BuildCross` | internal/scd/config/rules.go:505-556 | The edges are exactly those to named sources and to the sources of a named balancer of another subscription. |
| `DependencyRules.LocalCycle` | internal/scd/config/rules.go:478-481 | A cycle of the graph of all that stays in one subscription is a cycle of that subscription. |
| `DependencyRules.CycleOfAll` | internal/scd/config/rules.go:478-481 | A cycle of one subscription is a cycle of the graph of all. |
| `DependencyRules.RingOfAll` | internal/scd/config/rules.go:478-481 | So is any ring of dependencies on sources of one subscription. |
| `DependencyOrder.DependencyOrder` | internal/scd/syncer/check.go:34-71 | The loaded sources, each once; without cycles every one after its loaded dependencies, the smallest ready id first at each step, so never through the fallback. |
| `DependencyOrder.AcceptedIsAcyclic` | internal/scd/syncer/check.go:34-71 | In a configuration whose cycle checks report nothing the loaded sources of a subscription have no cycle: the order holds and the fallback is never taken. |
| `DependencyOrder.LoadedStep` | internal/scd/config/rules.go:343-367 | A dependency between loaded sources is an edge of the checked graph. |
| `DependencyOrder.SomeIsReady` | internal/scd/syncer/check.go:50-66 | Without a cycle some pending source is always ready. |
| `DependencyOrder.ChosenIsInOrder` | internal/scd/syncer/check.go:50-66 | What is chosen step by step is in dependency order. |
| `DependencyOrder.FirstReady` | internal/scd/syncer/check.go:51-58 | The first ready source, -1 exactly when none is. |
| `CandidateQuery.QueryIsReadBack` | internal/common/candidate/wireguard.go:406-420 | For distinct known keys parseQuery reads from what formatLine writes exactly the parameters that have a value. |
| `CandidateQuery.ValueIsReadBack` | internal/common/candidate/wireguard.go:375-377 | A value is read back although the escapes of comma, slash, colon and equals sign are undone. |
| `CandidateQuery.MapHoldsParams` | internal/common/candidate/wireguard.go:278-301 | The map read holds each parameter with its value. |
| `CandidateQuery.FormatQuery` | internal/common/candidate/wireguard.go:406-420 | The parameters with a value, in order, joined by "&". |
| `CandidateQuery.ReplaceEscape` | internal/common/candidate/wireguard.go:375-377 | The replacer undoes exactly the escapes of the four kept bytes and touches nothing else. |
| `CandidateQuery.ParseQuery` | internal/common/candidate/wireguard.go:278-301 | The segments are read in order up to the first error; only known keys with values are accepted. |
| `PingUrl.QueryIsReadBack` | internal/scd/monitor/pingurl.go:65-118 | Every query is read back as it was written. |
| `PingUrl.Set` | internal/scd/monitor/pingurl.go:90-105 | The slice, compacted in the array it is read from, is that of URLSearchParams.set. |
| `PingUrl.SetLeavesOne` | internal/scd/monitor/pingurl.go:90-105 | The key occurs exactly once, where it first was or else last, with the value. |
| `PingUrl.SetKeepsOthers` | internal/scd/monitor/pingurl.go:90-105 | All other pairs are there, in order. |
| `PingUrl.Compact` | internal/scd/monitor/pingurl.go:98-104 | Reading and writing the same array loses no pair of another key. |
| `PingUrl.Encode` | internal/scd/monitor/pingurl.go:107-118 | The pairs, escaped, joined by "&". |
| `PingUrl.ParseQuery` | internal/scd/monitor/pingurl.go:69-79 | The pairs in order, duplicates kept, empty parts skipped, invalid escapes literal. |
| `Percent.EscapeIsReadBack` | internal/scd/monitor/pingurl.go:107-118 | Unescaping an escaped string gives it back (RFC 3986 section 2.1). |
| `Percent.JoinIsSplit` | internal/scd/monitor/pingurl.go:69-79 | Splitting at a separator what was joined with it gives the parts back. |

## Left out
- gRPC, dialing, timeouts and protobuf: a call has an outcome, a client can be created or not.
- Logs, log levels, events, flap and episode state, report timestamps and the status API: nothing reads them to decide.
- SHA-256, base64, X25519 and the fields of an outbound: tags, keys and outbounds are opaque values.
- IEEE rounding in scores and margins: reals.
- Cron, probing through SOCKS, fetching and normalizing subscriptions, YAML and the rest of the configuration schema.
- Building the plans of VLESS sources (`byTag`, port overflow): `Daemon.Daemon.SyncPlans` applies any well-formed tunnels.
- Cross-subscription balancer health and `GetBalancerInfo`: a round of health is an input.
- `SlotReports` and the reports of inbounds and rules beyond their counts of success.
- The URL around a query, base64 keys and the typed fields of a candidate line.
- Interleaving of memory-only updates (checks) with the calls of a mutation under the lock: they are separate operations between the locked ones.
- ConfigHash is a string that is the same or not.
- Cycles.FindCycles: cycles are told apart as lists of nodes; the program joins the names with spaces.
- Repairs.RepairTunnel: the tunnel is looked up among those of its source; tags of different sources differ (`SourceRules.NamespacesDisjoint`).
- Daemon.Daemon.BeginTick: the sources of a target take their rounds one by one, and the quarantines of a wait end together with its start; the program updates all sources at once and then takes the lock for each release.
- Daemon.Daemon.SyncPlans: the look at Xray and the apply are one operation and all three kinds are applied; the program takes the lock for each of the two and applies the enabled kinds.
- TargetState.Target.DropSource: the wait, failed check and error entries of a dropped source are not part of this state; only sources that are no longer enabled are dropped, and nothing reads these entries of them.
- CandidateQuery.QueryIsReadBack: keys are lower-case letters, as all known parameters are.
- Daemon.Daemon.MemoryMirrorsXray: rules are left out of the mirror, because a failed RemoveRule does not stop an operation.
