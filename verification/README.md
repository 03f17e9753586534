# A verified model of the fboss agent's stateful cores

This project models five parts of the fboss switch agent whose correctness does not follow from any
single function, and proves what every run of each of them keeps.

* **State updates** (`StatePipeline`, `PipelineRuns`, `SwSwitch`). Any thread queues update functions;
  the update thread takes them in batches, folds them over the applied state and hands the result to
  hardware, which may apply any part of it. What is left over is queued again as a recovery update. The
  model has separate steps for pushing, signalling, taking a batch and finishing it, so pushes interleave
  with batches in every way.
* **LACP** (`LacpTypes`, `LacpMachines`, `LacpInvariants`, `LacpRuns`, `LacpReceive`, `LacpSelection`,
  `LacpMux`, `LacpForwarding`, `LacpMembers`, `LacpKeys`, `LacpWitness`, `LacpController`,
  `TransmitMachine`, `LacpCodec`). Each port has a receive, a mux and a transmit machine and a selector;
  all ports share one selection map, and an event on one port signals others. Timers are events that may
  come whenever they are set. The PDU codec and the transmit limiter are separate modules.
* **The neighbor cache** (`NeighborEntry`, `NeighborCache`, `NeighborRuns`, `NeighborExpiry`,
  `NeighborLearning`, `NeighborCacheImpl`). Entries probe and expire; the cache programs the switch-state table through
  closures that run later.
* **Lookup classes** (`LookupClasses`, `LookupRuns`, `LookupDeltas`, `LookupTables`,
  `LookupClassUpdater`). A reference-counted, least-loaded allocator kept in two cross-indexed maps and
  driven by the MAC, ARP and NDP tables: at boot, by deltas, and when a port's class list changes.
* **Next-hop probes** (`NexthopProbes`, `ResolvedNexthopMonitor`). Use counts driven by route and label
  deltas.

`Wrappers` holds the option type, the bytes and a fact about multisets that they share.

Each part has two layers. A value layer gives every operation as a function from a state to a state;
runs are sequences of events over it, and the theorems speak of every state of every run. An object layer
holds the source's own fields and loops; each of its methods is proved to do what the function says.
What the functions themselves do is stated once more without them, on the fields of the states before and
after an event.

## Where the code does less than expected

Several natural properties do not hold of the code. The model follows the code, shows a case that
fails and proves exactly when the property does hold.

* An update that returns the handle hardware still runs, in a batch that begins with a recovery update,
  makes the batch end where it began. The recovery is then dropped and applied and desired stay apart
  (`RecoveryDropped`). The invariant holds in a run exactly when no batch does that (`RunInvExactly`), and
  updates that copy on write never do (`CopyOnWriteKeepsRecoveries`).
* Setting the class of an entry that is still pending makes the table show it as reachable at the
  broadcast address (`PendingShownReachable`), because `updateEntry` always sets REACHABLE. Table and cache
  agree exactly at the addresses where this has not happened since they were last programmed.
* The probe counter has eight bits while the configured maximum has thirty-two and defaults to 300, which
  is kept as 44 (`DefaultProbes`). Entries send as many probes as the maximum says only when it fits
  (`IncompleteProbes`, `StaleProbes`). When it is a multiple of 256 an entry can be left behind EXPIRED
  with no timer (`ExpiredLeftBehind`), or with one that then raises an error (`TimerRaises`); as long as it
  never is, that never happens (`EntriesStayLive`). `LeftBehindExactly`, `RunLeftBehindExactly` and
  `RunRaisesExactly` say exactly when it does.
* A port can forward although it is in no group. Three events begin this: the end of a wait on a matched
  port that has lost its group, because nothing cancels the timer; a PDU in sync that moves a forwarding
  port to a group nobody holds while its aggregate is held; and a PDU in sync from the same partner to an
  attached port that is shut out like that. `StrayExactly` and `StraysExactly` say that it happens exactly
  then, and `MovedWhileForwarding`, `WaitEndsInNoGroup` and `MatchedInNoGroup` are runs that get there.
* A port can forward while it is on STANDBY, because standing down does not cancel the wait timer either:
  the wait of a matched port may end there, or the match may come after it ended (`ForwardsOnStandby`).
  `IdleExactly` and `IdlesExactly` say that it happens exactly then.
* One aggregate can be in two groups at once, because a group identifier does not tell an individual
  partner at port 0 with priority 0 from an aggregatable one (`OneKeyTwoGroups`). `OneGroupExactly` says
  exactly when; with aggregatable partners only it never is (`OneGroupPerKey`).
* The lookup class updater skips deltas whose new entry already has a class, or that touch an aggregate
  port or a VLAN that is gone, releases a deleted ARP or NDP entry even if it was never counted, and on a
  class-list change gives up every classed entry and counts every entry of the port's VLANs, resolved or
  not (`SkippedMoveFails`, `ClearFails`, `PendingIsCounted`; the agent builds pending entries on port 0
  only, so the last needs classes configured on that port). `DeltaExact` and `EventExactly` say exactly
  which events keep the reference counts right, and `RunTracksExactly` lifts this to runs from a boot.
* `skipLabelFibEntry` returns true for clients that are monitored, the opposite of `skipRoute`, so a label
  of a monitored client gets no probe (`MonitoredLabelMissed`). `UseCountsExact` is about what the code
  counts; `IntendedExactly` says exactly when that is what was intended.
* A comment in `NeighborCacheEntry.h` names RFC 4681; the states are those of section 7.3.2 of RFC 4861.

## Model

| member | source | states |
|---|---|---|
| StatePipeline.Pulled | fboss/agent/SwSwitch.cpp:690-706 | a batch takes at least one update if there is one; none before its last is an ordinary update that does not coalesce, and if anything is left behind the last is one |
| PipelineRuns.ArrivalsArePushes | fboss/agent/SwSwitch.cpp:624-634 | in every run the updates that arrived are the pushes so far, in order, each with its own function and coalescing flag |
| PipelineRuns.FoldMeaning | fboss/agent/SwSwitch.cpp:733-759 | the states the loop prepares have the contents of the plain left fold, recovery included |
| PipelineRuns.FoldFresh | fboss/agent/SwSwitch.cpp:762-784 | copy-on-write updates leave the handle alone or make a new one of a later generation; a recovery always makes a new one |
| PipelineRuns.FinishKeepsExactly | fboss/agent/SwSwitch.cpp:762-790 | a batch keeps the invariant if and only if it does not end at the applied handle after taking a recovery; otherwise applied and desired differ with no recovery queued |
| PipelineRuns.RunInvExactly | fboss/agent/SwSwitch.cpp:624-790 | for every run that does not exit, the invariant holds throughout if and only if no batch drops a recovery |
| PipelineRuns.CopyOnWriteKeepsRecoveries | fboss/agent/SwSwitch.cpp:733-790 | runs of copy-on-write updates never drop a recovery |
| PipelineRuns.DesiredIsFold | fboss/agent/SwSwitch.cpp:636-790 | between batches desired is the left fold, in arrival order, of all handled updates; applied differs from desired exactly when the queue's head is a recovery, which carries desired and is the only one |
| PipelineRuns.AcceptedIsFold | fboss/agent/SwSwitch.cpp:813-830 | even while exiting, what desired says or the pending recovery carries is the fold of all handled updates |
| PipelineRuns.DeltasGoForward | fboss/agent/SwSwitch.cpp:813-826 | a batch that changes anything asks, exiting or not, for a later generation than the applied one, so the two DCHECKs hold; unless exiting, hardware is given exactly the delta between the two |
| PipelineRuns.RecoveryDropped | fboss/agent/SwSwitch.cpp:762-784 | a run in which applied and desired stay apart with an empty queue |
| PipelineRuns.NoLostUpdates | fboss/agent/SwSwitch.cpp:624-713 | in every run, wake-ups scheduled or about to be are at least the pending ordinary updates; with none left everything that arrived was handled and at most a recovery is queued |
| PipelineRuns.Drains | fboss/agent/SwSwitch.cpp:636-713 | without new pushes the number of steps left is bounded, whatever hardware answers, and work remains exactly while some step can be taken |
| PipelineRuns.BatchesEndAtBarriers | fboss/agent/SwSwitch.cpp:690-706 | in every run, whatever stands in a batch before its last update and is no recovery was pushed as one that may be coalesced |
| PipelineRuns.SplicesStopAtBarriers | fboss/agent/SwSwitch.cpp:690-706 | in every run a splice takes a front of the queue, something if there is something, and leaves anything behind only after an update pushed as one that must not be coalesced |
| PipelineRuns.BarrierReachesHardware | fboss/agent/SwSwitch.cpp:690-790 | in every run, whatever was dropped before, hardware is given a delta that ends exactly at the output of an update whose flag forbids coalescing, and nothing after that update was looked at |
| PipelineRuns.BarrierIsFold | fboss/agent/SwSwitch.cpp:690-790 | as long as no recovery was dropped, that output is the fold of everything up to the update |
| PipelineRuns.CompletedExactlyOnce | fboss/agent/SwSwitch.cpp:729-790 | each handled update is completed once: with an error exactly if it throws on the fold of everything before it, else with success |
| PipelineRuns.NeverCompletedTwice | fboss/agent/SwSwitch.cpp:729-790 | in every run, whatever updates return, each handled update is completed exactly once and no other is |
| PipelineRuns.CompletesInOrder | fboss/agent/SwSwitch.cpp:729-790 | in every run a batch first reports its errors and then its successes, both in order of arrival; nothing else reports any |
| PipelineRuns.ExitFreezes | fboss/agent/SwSwitch.cpp:813-830 | once the switch exits, hardware is given nothing more and neither state changes |
| SwSwitch.Switch.constructor | fboss/agent/SwSwitch.cpp:394-409 | one state is stored as applied and as desired, and nothing is pending |
| SwSwitch.Switch.UpdateState | fboss/agent/SwSwitch.cpp:624-634 | appends the update and schedules one wake-up |
| SwSwitch.Switch.CountPulled | fboss/agent/SwSwitch.cpp:694-703 | the loop stops where `Pulled` says |
| SwSwitch.Switch.TakeBatch | fboss/agent/SwSwitch.cpp:690-706 | splices the batch off the queue |
| SwSwitch.Switch.Prepare | fboss/agent/SwSwitch.cpp:729-759 | the loop computes the fold, the failures in order and the updates left on the list |
| SwSwitch.Switch.ApplyUpdate | fboss/agent/SwSwitch.cpp:813-874 | hands hardware one delta and stores both states, or does nothing when exiting |
| SwSwitch.Switch.Commit | fboss/agent/SwSwitch.cpp:761-784 | applies the new desired state and queues the recovery at the front if hardware fell short |
| SwSwitch.Switch.NotifySuccess | fboss/agent/SwSwitch.cpp:786-790 | completes every remaining update with success, in order |
| SwSwitch.Switch.HandlePendingUpdates | fboss/agent/SwSwitch.cpp:682-790 | one wake-up does exactly a splice and, if anything was taken, a finish |
| LacpRuns.StepKeeps | fboss/agent/LacpMachines.cpp:150-360 | every enabled event succeeds and keeps the invariant of all ports and the selection map |
| LacpRuns.RunInv | fboss/agent/LacpMachines.cpp:150-360 | the invariant holds in every state of every run |
| LacpRuns.ChecksNeverFail | fboss/agent/LacpMachines.cpp:173-180 | no CHECK and no throwing branch is reached by any enabled event, the port-up CHECK and the timeout branch included |
| LacpRuns.ReceiveTimerExact | fboss/agent/LacpMachines.cpp:322-351 | in every reachable state the receive timer is set exactly when the machine is CURRENT or EXPIRED |
| LacpRuns.FateSharing | fboss/agent/LacpMachines.cpp:190-320 | matched is the partner's IN_SYNC, which implies CURRENT; a distributing port is matched and up; a port that is not CURRENT forwards nothing |
| LacpRuns.ForwardingFollowsMux | fboss/agent/LacpMachines.cpp:633-728 | the actor's IN_SYNC, COLLECTING and DISTRIBUTING are a function of the mux state; the commands sent leave forwarding enabled, for the port's own aggregate, exactly while it distributes; every enable ever sent names that aggregate, and the last command is an enable exactly while the port distributes |
| LacpRuns.MinimumLinks | fboss/agent/LacpMachines.cpp:746-822 | a group without individual members has no SELECTED port or at least the minimum |
| LacpRuns.SelectionsNameCurrentGroup | fboss/agent/LacpMachines.cpp:746-772 | every entry of the selection map names the group made from the port's current actor and partner |
| LacpRuns.RecordedKeeps | fboss/agent/LacpMachines.cpp:267-292 | after a PDU is recorded an entry left in the map is one that stands, so the insert in the choice of a group never meets an existing key |
| LacpReceive.HearsExactly | fboss/agent/LacpMachines.cpp:158-356 | exactly what each event leaves of receive machine, timer, partner, match and the flags EXPIRED and DEFAULTED, on every port; after a PDU a port is matched if and only if the sender is in sync and is individual or names this port's system, aggregate, port and both priorities |
| LacpReceive.ActorFlags | fboss/agent/LacpMachines.cpp:206-356 | in every run ACTIVE, SHORT_TIMEOUT and AGGREGATABLE are as configured, and EXPIRED and DEFAULTED follow the receive machine |
| LacpSelection.GroupsExactly | fboss/agent/LacpTypes.cpp:94-116 | in every run two ports with a selection are in one group if and only if their links agree in both systems, system priorities and keys, and on each side in port and port priority, which count as 0 where that side is aggregatable |
| LacpSelection.SelectionsExactly | fboss/agent/LacpMachines.cpp:746-913 | exactly what every event makes of the whole selection map: the group and state of its own port, and who else is promoted or stood down |
| LacpMux.MuxExactly | fboss/agent/LacpMachines.cpp:522-728 | exactly what every event makes of the mux and the wait timer of every port, by its selection, match and mux before |
| LacpMux.SelectedNotStuck | fboss/agent/LacpMachines.cpp:522-543 | in every run a SELECTED port is attached or distributing, or waits with its timer set |
| LacpForwarding.TwoExpiries | fboss/agent/LacpMachines.cpp:206-351 | two expiries of a port with no PDU to it in between, whatever else happens, leave it without selection, its mux DETACHED and nothing forwarding |
| LacpMembers.UnselectedStandsMembersDown | fboss/agent/LacpMachines.cpp:884-913 | when a port is unselected every other SELECTED member is on STANDBY, neither ATTACHED nor distributing, and not forwarding |
| LacpMembers.PortDownStandsMembersDown | fboss/agent/LacpMachines.cpp:869-898 | the same at the end of a port-down event |
| LacpMembers.SecondExpiryStandsMembersDown | fboss/agent/LacpMachines.cpp:206-260 | the same at the end of a second expiry |
| LacpMembers.StandsDownExactly | fboss/agent/LacpMachines.cpp:746-913 | a SELECTED port goes to STANDBY by an event of another port if and only if that port gives up the same group, by going down, a second expiry or a PDU that changes its partner, and does not complete the group again; it then is neither attached nor distributing nor forwarding |
| LacpForwarding.LosesSelection | fboss/agent/LacpMachines.cpp:746-802 | a PDU leaves a port in no group exactly when it is shut out, that is aggregatable, its aggregate held and its group held by nobody else, and it had no group to keep |
| LacpForwarding.StrayExactly | fboss/agent/LacpMachines.cpp:267-320 | in every state that keeps the invariant, an event leaves a port forwarding with no selection if and only if it is one of the three that begin it, or it was so before and the event leaves it be |
| LacpForwarding.StraysExactly | fboss/agent/LacpMachines.cpp:545-728 | a run has a state in which a port forwards with no selection if and only if one of the three events happens to it in a state where it does not |
| LacpMux.IdleExactly | fboss/agent/LacpMachines.cpp:567-607 | in every state that keeps the invariant, an event leaves a port forwarding on STANDBY if and only if its wait ends there while matched, or it is attached there and comes into sync, or it was so before and the event leaves it be |
| LacpMux.IdlesExactly | fboss/agent/LacpMachines.cpp:567-698 | a run has a state in which a port forwards on STANDBY if and only if one of the first two happens to it in a state where it does not |
| LacpWitness.MovedWhileForwarding | fboss/agent/LacpMachines.cpp:267-320 | a run in which a PDU moves a forwarding port to a group it is shut out of |
| LacpWitness.WaitEndsInNoGroup | fboss/agent/LacpMachines.cpp:679-698 | a run in which a port loses its group while it waits and distributes when the wait ends |
| LacpWitness.MatchedInNoGroup | fboss/agent/LacpMachines.cpp:589-607 | a run in which an attached port in no group comes into sync |
| LacpWitness.ForwardsOnStandby | fboss/agent/LacpMachines.cpp:567-698 | a run in which a waiting port stands down, its wait ends all the same and it forwards on STANDBY |
| LacpKeys.KeysExactly | fboss/agent/LacpMachines.cpp:782-848 | an event keeps one group per actor key among aggregatable ports if and only if it does not put a port in a held group while its key is in another |
| LacpKeys.OneGroupExactly | fboss/agent/LacpMachines.cpp:782-848 | in every run, aggregatable ports of one key are in one group throughout if and only if no event splits a key |
| LacpKeys.OneGroupPerKey | fboss/agent/LacpTypes.cpp:94-116 | so they are whenever individual partners can be told apart from aggregatable ones inside a group identifier, and in particular when all partners are aggregatable |
| LacpWitness.OneKeyTwoGroups | fboss/agent/LacpTypes.cpp:94-116 | a run in which an individual partner at port 0 with priority 0 lets one aggregate into two groups |
| LacpInvariants.SelectKeeps | fboss/agent/LacpMachines.cpp:746-822 | selecting keeps the selection map current and the minimum link count |
| LacpController.Controller.constructor | fboss/agent/LacpController.cpp:39-70 | the flags a controller starts with are those its configuration gives, and all its machines are at rest |
| LacpController.Controller.SignalSelected | fboss/agent/LacpMachines.cpp:522-543 | from DETACHED the port waits with its timer set, from WAITING it attaches, elsewhere only the aggregate is noted |
| LacpController.Controller.SignalUnselected | fboss/agent/LacpMachines.cpp:545-565 | a waiting or attached port detaches; a distributing one only goes back to ATTACHED |
| LacpController.Controller.SignalStandby | fboss/agent/LacpMachines.cpp:567-587 | a detached port waits with no timer, an attached or distributing one detaches, so none is left attached |
| LacpController.Controller.SignalMatched | fboss/agent/LacpMachines.cpp:589-607 | an attached port starts to distribute; in every state the match is remembered |
| LacpController.Controller.SignalNotMatched | fboss/agent/LacpMachines.cpp:609-627 | a distributing port goes back to ATTACHED and stops forwarding; in every state the match is forgotten |
| LacpController.Controller.Detached | fboss/agent/LacpMachines.cpp:663-677 | enters DETACHED, clears the flags and disables forwarding |
| LacpController.Controller.Waiting | fboss/agent/LacpMachines.cpp:679-685 | enters WAITING and sets the timer if asked to |
| LacpController.Controller.Attached | fboss/agent/LacpMachines.cpp:700-716 | enters ATTACHED, sets IN_SYNC and disables forwarding |
| LacpController.Controller.CollectingDistributing | fboss/agent/LacpMachines.cpp:718-728 | enters COLLECTING_DISTRIBUTING and enables forwarding for the selected aggregate |
| LacpController.Controller.MuxTimeoutExpired | fboss/agent/LacpMachines.cpp:687-698 | attaches, and distributes at once when matched |
| LacpController.Controller.RecordDefaultPartner | fboss/agent/LacpMachines.cpp:353-356 | forgets the partner and marks the actor DEFAULTED |
| LacpController.Controller.Expired | fboss/agent/LacpMachines.cpp:216-227 | drops the partner's sync, signals not matched and starts an epoch |
| LacpController.Controller.Disabled | fboss/agent/LacpMachines.cpp:229-236 | drops the partner's sync, signals not matched and cancels the epoch |
| LacpController.Controller.Record | fboss/agent/LacpMachines.cpp:300-320 | records the PDU's actor and signals matched if and only if that actor is in sync and is individual or the PDU names this port's configured system, aggregate, port and both priorities |
| LacpController.Manager.AddMember | fboss/agent/LinkAggregationManager.cpp:146-168 | adds a controller at rest, so that members added to an empty manager make an initial state of the model |
| LacpController.Manager.GetPortsWithSelection | fboss/agent/LacpMachines.cpp:855-867 | exactly the ports with that selection |
| LacpController.Manager.Standby | fboss/agent/LacpController.cpp:204-211 | signals every port of the range, whatever the order |
| LacpController.Manager.Selected | fboss/agent/LacpController.cpp:195-202 | signals every port of the range, whatever the order |
| LacpController.Manager.UnselectedPort | fboss/agent/LacpMachines.cpp:884-898 | erases the port's selection, stands the group down and signals the port |
| LacpController.Manager.IsAvailable | fboss/agent/LacpMachines.cpp:840-848 | whether no selection names the aggregate |
| LacpController.Manager.ChooseLag | fboss/agent/LacpMachines.cpp:746-802 | an individual port is selected at once; another joins a group in use or one whose aggregate is free, and otherwise stays out |
| LacpController.Manager.PromoteStandby | fboss/agent/LacpMachines.cpp:804-822 | promotes all waiting members when there are exactly the minimum |
| LacpController.Manager.SelectPort | fboss/agent/LacpMachines.cpp:746-822 | the whole of `select` |
| LacpController.Manager.StartMachines | fboss/agent/LacpMachines.cpp:190-204 | is the event of the model, ends in DISABLED and keeps the invariant |
| LacpController.Manager.PortUp | fboss/agent/LacpController.cpp:98-103 | is the event of the model: fails the CHECK exactly when the model does, and under the invariant never |
| LacpController.Manager.PortDown | fboss/agent/LacpController.cpp:105-111 | is the event of the model: disables the port, stands its group down if it held a selection, and keeps the invariant |
| LacpController.Manager.Receive | fboss/agent/LacpMachines.cpp:158-171 | is the event of the model: changes nothing while DISABLED, and keeps the invariant |
| LacpController.Manager.ReceiveTimeoutExpired | fboss/agent/LacpMachines.cpp:330-351 | is the event of the model: throws exactly when the model does, and under the invariant never |
| LacpController.Manager.MuxTimeoutExpired | fboss/agent/LacpMachines.cpp:687-698 | is the event of the model, in whatever mux state it comes, and keeps the invariant |
| TransmitMachine.TransmissionBound | fboss/agent/LacpMachines.cpp:461-511 | any contiguous segment of any history with n replenish ticks has at most 3 + n transmissions |
| TransmitMachine.LevelInRange | fboss/agent/LacpMachines.cpp:484-489 | transmissions left stay between 0 and 3 |
| TransmitMachine.BoundIsTight | fboss/agent/LacpMachines.cpp:461-511 | some segment ending now uses the whole bound but for what is left |
| TransmitMachine.SkippedOnlyAtTheBound | fboss/agent/LacpMachines.cpp:491-511 | a request is skipped exactly when sending it would break the bound on some segment |
| TransmitMachine.Transmitter.Ntt | fboss/agent/LacpMachines.cpp:491-511 | sends exactly when the history's level is positive and the servicer accepts |
| TransmitMachine.Transmitter.ReplenishTransmissionsLeft | fboss/agent/LacpMachines.cpp:484-489 | adds one up to the maximum |
| LacpCodec.RoundTrip | fboss/agent/LacpTypes-defs.h:45-102 | a PDU is decoded to itself, whatever follows it, if and only if its reserved bytes are zero |
| LacpCodec.BytesBack | fboss/agent/LacpTypes-defs.h:45-102 | decoding then encoding gives the bytes back if and only if the skipped bytes are zero |
| LacpCodec.DecodesByOffset | fboss/agent/LacpTypes-defs.h:45-76 | every field of a PDU, each of the eight flags included, is read from its own bytes, given by their offsets, most significant first |
| LacpCodec.EncodesByOffset | fboss/agent/LacpTypes-defs.h:78-102 | every field is written to those bytes, and the reserved bytes to theirs |
| LacpCodec.SentIsRead | fboss/agent/LacpTypes.cpp:18-20 | a PDU built from two participants has them at their offsets, with version, types and lengths as the standard says, and is read back by whoever receives it |
| LacpCodec.StateRoundTrip | fboss/agent/LacpTypes.h:37-47 | the eight flags survive the state octet |
| LacpCodec.OctetRoundTrip | fboss/agent/LacpTypes.h:37-47 | every octet is the encoding of its flags |
| LacpCodec.InfoRoundTrip | fboss/agent/LacpTypes-defs.h:19-43 | participant information is read back from wherever it was written |
| LacpCodec.Writer.WriteInfo | fboss/agent/LacpTypes-defs.h:34-43 | writes the 15 bytes in place and none after them |
| LacpCodec.Writer.WritePdu | fboss/agent/LacpTypes-defs.h:78-102 | writes exactly the encoding at the cursor and nothing after it |
| LacpCodec.BuildFrame | fboss/agent/LinkAggregationManager.cpp:288-320 | addresses, VLAN tag, slow-protocols type, subtype and PDU fill the 128 bytes exactly, each in its place, and the PDU can be read back |
| LacpCodec.Reader.ReadInfo | fboss/agent/LacpTypes-defs.h:19-32 | reads the fields at the cursor or fails when bytes are missing |
| LacpCodec.Reader.ReadPdu | fboss/agent/LacpTypes-defs.h:45-76 | decodes at the cursor, failing exactly when fewer than 109 bytes remain |
| NeighborEntry.ProbesThenExpires | fboss/agent/NeighborCacheEntry.h:319-367 | an unanswered entry sends one probe per firing until the counter is used up and expires at the next |
| NeighborEntry.HitThenExpires | fboss/agent/NeighborCacheEntry.h:335-367 | a STALE or REACHABLE entry is STALE from its first firing on and sends nothing until a firing finds it hit, then one probe per firing, as many as its counter says, and expires at the next |
| NeighborEntry.KindOfProbes | fboss/agent/NeighborCacheEntry.h:319-333 | INCOMPLETE entries send multicast solicitations only, all others unicast to their own MAC and port |
| NeighborEntry.IncompleteProbes | fboss/agent/NeighborCacheEntry.h:293-333 | an INCOMPLETE entry sends (max - 1) mod 256 more probes, which is max - 1 exactly for 1 to 256 |
| NeighborEntry.StaleProbes | fboss/agent/NeighborCacheEntry.h:293-341 | an entry put in STALE or REACHABLE and hit, at once or at any later firing, sends max mod 256 probes in all, which is max exactly up to 255 |
| NeighborEntry.DefaultProbes | fboss/agent/state/SwitchState.h:105 | with the default of 300 an INCOMPLETE entry sends 43 more probes and one hit while STALE, at once or later, 44 in all |
| NeighborEntry.CacheEntry.ProbeIfLeft | fboss/agent/NeighborCacheEntry.h:319-333 | sends one probe and counts it, or expires |
| NeighborEntry.CacheEntry.Run | fboss/agent/NeighborCacheEntry.h:343-367 | a probing entry spends a probe or expires; a STALE or REACHABLE one is probed only when hit; fails, changing nothing, exactly in the states in which the source throws |
| NeighborEntry.CacheEntry.UpdateState | fboss/agent/NeighborCacheEntry.h:293-317 | resets the counter, to one less for INCOMPLETE, and runs the machine at once for STALE |
| NeighborEntry.CacheEntry.Process | fboss/agent/NeighborCacheEntry.h:133-147 | runs the machine and sets the timer again unless expired; fails exactly where the machine throws |
| NeighborRuns.StepAgrees | fboss/agent/NeighborCacheImpl-defs.h:63-396 | every operation keeps the agreement of cache and table |
| NeighborRuns.TableMatchesCache | fboss/agent/NeighborCacheImpl-defs.h:63-396 | at any point of any run, running all queued closures gives the cache's addresses, and its MAC, port, interface and pending or not at exactly the undamaged ones |
| NeighborRuns.TableEqualsCache | fboss/agent/NeighborCacheImpl-defs.h:63-396 | while no class was set on a pending entry the final table equals the cache's fields, class included |
| NeighborRuns.PendingShownReachable | fboss/agent/NeighborCacheImpl-defs.h:196-235 | a run after which a pending entry is shown reachable at the broadcast address |
| NeighborLearning.LearnsExactly | fboss/agent/NeighborCacheImpl-defs.h:160-396 | what every event leaves in the cache for every address that stays: the MAC, port and interface a message tells it, pending after a request or when its port goes down, the class that is set, and else what was there |
| NeighborLearning.DamagesExactly | fboss/agent/NeighborCacheImpl-defs.h:196-235 | an event leaves an address damaged if and only if it sets its class while pending, or it was damaged and the event neither removes it nor changes where it is |
| NeighborLearning.TableShowsLastTold | fboss/agent/NeighborCacheImpl-defs.h:63-396 | in every run cache and final table show an address as it was last told, the table exactly unless a class was set on it while pending and nothing has changed where it is since |
| NeighborExpiry.EntriesStayLive | fboss/agent/NeighborCacheImpl-defs.h:237-284 | as long as the maximum was never a multiple of 256, every entry is INCOMPLETE exactly when pending, else PROBE, STALE or REACHABLE, has its timer, and no event raises an error |
| NeighborExpiry.StepFollows | fboss/agent/NeighborCacheImpl-defs.h:237-396 | exactly what every event makes of the state, counter and timer of every entry: put in a state with a fresh counter, fired, removed by a flush request or on expiry, or left as it was |
| NeighborExpiry.EnteringSends | fboss/agent/NeighborCacheEntry.h:293-341 | an event that puts an entry in a state sends at once one unicast probe to where the entry then is, if that state is STALE, the entry is hit and its counter is not zero, and otherwise nothing |
| NeighborExpiry.LeftBehindExactly | fboss/agent/NeighborCacheEntry.h:293-341 | an event raises an error if and only if it is the timer of an EXPIRED entry; otherwise it leaves an entry EXPIRED in the cache if and only if it puts it in STALE, hit, with a counter that starts at zero, or found it so and left it, and with its timer set if and only if it was set before |
| NeighborExpiry.RunLeftBehindExactly | fboss/agent/NeighborCacheEntry.h:293-341 | a run has an entry left behind if and only if it was hit at boot, or put in STALE and hit, with a counter that starts at zero |
| NeighborExpiry.RunRaisesExactly | fboss/agent/NeighborCacheEntry.h:343-367 | a run reaches a state in which a timer raises an error if and only if a live entry was put in STALE and hit with a counter that starts at zero |
| NeighborExpiry.ExpiredLeftBehind | fboss/agent/NeighborCacheEntry.h:293-341 | for a multiple of 256, a run that leaves an EXPIRED entry with no timer |
| NeighborExpiry.TimerRaises | fboss/agent/NeighborCacheEntry.h:343-367 | for a multiple of 256, a run after which the timer of an entry raises an error |
| NeighborExpiry.ExpiresAndIsRemoved | fboss/agent/NeighborCacheImpl-defs.h:274-284 | in every run, whatever goes on at other addresses, an entry that is being probed and that nobody answers for sends its remaining probes, one per firing, and is then gone from cache and table, not earlier |
| NeighborExpiry.CounterIsFull | fboss/agent/NeighborCacheEntry.h:293-341 | in every run a STALE or REACHABLE entry has as many probes left as the maximum said, mod 256, when it was last put in a state |
| NeighborExpiry.HitAndRemoved | fboss/agent/NeighborCacheEntry.h:319-367 | in every run a STALE or REACHABLE entry that nobody answers for sends nothing until it is found hit, then that many probes, one per firing, and is then gone from cache and table, not earlier |
| NeighborExpiry.GoesItsWay | fboss/agent/NeighborCacheImpl-defs.h:274-284 | in every run an entry that nobody answers for sends exactly the probes it would send on its own |
| NeighborRuns.UnicastProbesResolved | fboss/agent/NeighborCacheEntry.h:319-333 | every unicast probe of every run, whatever the maximum, goes to the MAC and port of a resolved entry |
| NeighborCacheImpl.Cache.Repopulate | fboss/agent/NeighborCacheImpl-defs.h:150-158 | fills the cache from the table |
| NeighborCacheImpl.Cache.SetEntryInternal | fboss/agent/NeighborCacheImpl-defs.h:237-256 | updates or adds the entry and answers whether to program it |
| NeighborCacheImpl.Cache.SetResolved | fboss/agent/NeighborCacheImpl-defs.h:160-183 | sets the entry to that MAC, port and interface and queues its programming when it changed; what runs make of this is `TableShowsLastTold` |
| NeighborCacheImpl.Cache.SetPendingEntry | fboss/agent/NeighborCacheImpl-defs.h:258-273 | overwrites an existing entry only when forced and queues its programming when it changed |
| NeighborCacheImpl.Cache.UpdateState | fboss/agent/NeighborCacheImpl-defs.h:186-193 | enters the state if the entry exists |
| NeighborCacheImpl.Cache.UpdateEntryClassID | fboss/agent/NeighborCacheImpl-defs.h:196-235 | sets the class in the cache and queues the closure |
| NeighborCacheImpl.Cache.FlushEntry | fboss/agent/NeighborCacheImpl-defs.h:302-367 | removes the entry and queues its removal |
| NeighborCacheImpl.Cache.ProcessTimer | fboss/agent/NeighborCacheImpl-defs.h:275-284 | is the event of the model: fails exactly when the machine throws, which among entries that are live or EXPIRED is the timer of an EXPIRED one; else runs the entry and flushes it when expired |
| NeighborCacheImpl.Cache.TakePortDown | fboss/agent/NeighborCacheImpl-defs.h:379-396 | makes exactly the entries on the port pending, in some order |
| NeighborCacheImpl.Cache.SetMaxNeighborProbes | fboss/agent/NeighborUpdaterImpl.cpp:213-228 | changes the maximum for entries that enter a state from then on |
| NeighborCacheImpl.Cache.ReceivedSolicitation | fboss/agent/NdpCache.cpp:42-60 | replaces the entry by a STALE one exactly when its MAC or port differs or it is missing |
| NeighborCacheImpl.Cache.ReceivedAdvertisement | fboss/agent/NdpCache.cpp:62-94 | sets the entry, updates its state or does nothing, as override and solicited say |
| NeighborCacheImpl.Cache.RunNextClosure | fboss/agent/NeighborCacheImpl-defs.h:63-145 | the next closure changes the table as `ApplyClosure` says |
| LookupClasses.LeastLoaded | fboss/agent/LookupClassUpdater.cpp:52-61 | the lowest class among those with the fewest keys |
| LookupClasses.AddKeeps | fboss/agent/LookupClassUpdater.cpp:116-170 | an add succeeds, keeps counters and reference counts exact, and keeps the counters balanced |
| LookupClasses.RemoveFailsExactly | fboss/agent/LookupClassUpdater.cpp:486-509 | a CHECK fails on removal exactly when nobody holds the key |
| LookupClasses.RemoveKeeps | fboss/agent/LookupClassUpdater.cpp:486-509 | removing a held key succeeds and keeps counters and reference counts exact |
| LookupClasses.RebuildExact | fboss/agent/LookupClassUpdater.cpp:511-572 | the warm-boot rebuild fails a CHECK exactly when one key was found with two classes; otherwise classes and counts are restored |
| LookupRuns.CountersExact | fboss/agent/LookupClassUpdater.cpp:104-170 | in every reachable state each counter is the number of keys of its class, each reference count the number of holders and positive, and no next step that gives up only held keys fails a CHECK |
| LookupRuns.BalancedAfterStart | fboss/agent/LookupClassUpdater.cpp:104-116 | from a boot with nothing found, the start of a port or the repopulation after a class-list change, through any adds, every key has one of the port's classes and no two classes differ by more than one key |
| LookupRuns.NewKeyGetsFewest | fboss/agent/LookupClassUpdater.cpp:116-150 | in every run a key that nobody holds gets the lowest of the port's classes that have the fewest keys |
| LookupRuns.ClassIsKept | fboss/agent/LookupClassUpdater.cpp:116-150 | a key keeps its class as long as any holder remains |
| LookupDeltas.DeltaExact | fboss/agent/LookupClassUpdater.cpp:172-289 | a delta is handled with no failing CHECK and exact reference counts if and only if one that involves an aggregate port or brings a class leaves the entry where it was and a deleted one was counted |
| LookupDeltas.DeltaFollows | fboss/agent/LookupClassUpdater.cpp:200-289 | what every delta does, by its entries alone: nothing for an aggregate port or a new entry with a class; a deleted entry is given up or fails the CHECK; else one holder leaves the old place if resolved and one comes to the new |
| LookupDeltas.SkippedMoveFails | fboss/agent/LookupClassUpdater.cpp:262-278 | a move skipped because the new entry carries a class makes the later removal fail a CHECK |
| LookupTables.RebuildsExactly | fboss/agent/LookupClassUpdater.cpp:511-572 | the rebuild of a port fails a CHECK exactly when two entries with a class, on the port and its VLANs, share MAC and VLAN but not the class |
| LookupTables.BootExactly | fboss/agent/LookupClassUpdater.cpp:536-572 | the rebuild alone leaves reference counts equal to the resolved entries if and only if at each place it leaves out as many resolved ones, without a class or off the port's VLANs, as it counts unresolved ones |
| LookupTables.StartExactly | fboss/agent/LookupClassUpdater.cpp:574-585 | rebuild and first delta together do so if and only if at each place classed entries off the port's VLANs and unresolved classed ones on them are equally many |
| LookupTables.ClearExactly | fboss/agent/LookupClassUpdater.cpp:291-328 | the clear of a class-list change fails no CHECK if and only if for each MAC and VLAN the entries with a class do not outnumber the holders |
| LookupTables.NewClassesExactly | fboss/agent/LookupClassUpdater.cpp:413-465 | a class-list change fails no CHECK and leaves exact counts if and only if the clear is held and the repopulation meets as many unresolved entries as it misses resolved ones |
| LookupTables.NewClassesByTables | fboss/agent/LookupClassUpdater.cpp:413-465 | on a port that has classes already that condition is on the tables alone: for each MAC and VLAN, entries with a class do not outnumber resolved ones |
| LookupTables.NewClassesMeets | fboss/agent/LookupClassUpdater.cpp:413-465 | after a class-list change whose clear is held, the port holds every entry on it and its VLANs, resolved or not, or nothing if the list is empty, and other ports what they held |
| LookupTables.NewPortExactly | fboss/agent/LookupClassUpdater.cpp:369-384 | a new port with classes leaves exact counts if and only if nothing resolved to it before |
| LookupTables.GonePortExactly | fboss/agent/LookupClassUpdater.cpp:386-411 | a port goes without a failing CHECK and leaves exact counts if and only if no entry of its VLANs is on it |
| LookupTables.GoneVlanExactly | fboss/agent/LookupClassUpdater.cpp:244-248 | a VLAN that goes, whose entries are not processed, leaves exact counts if and only if none of them was counted |
| LookupTables.EventExactly | fboss/agent/LookupClassUpdater.cpp:172-465 | from exact counts, any event fails no CHECK and leaves exact counts if and only if it is sound in this sense |
| LookupTables.RunTracksExactly | fboss/agent/LookupClassUpdater.cpp:172-585 | over every run from a boot, counts are exact throughout if and only if the tables booted from and every event are sound |
| LookupTables.RefCountsFollowTables | fboss/agent/LookupClassUpdater.cpp:172-585 | in such a run each reference count is the number of resolved entries with that MAC, VLAN and port, and no sound event fails a CHECK |
| LookupTables.ClearFails | fboss/agent/LookupClassUpdater.cpp:291-328 | a port that gets its first classes after a classed entry resolved to it fails the CHECK |
| LookupTables.PendingIsCounted | fboss/agent/LookupClassUpdater.cpp:329-352 | the repopulation counts an entry that is not resolved |
| LookupClassUpdater.GetClassIDWithMinimumNeighbors | fboss/agent/LookupClassUpdater.cpp:52-61 | the loop finds the least loaded class |
| LookupClassUpdater.Updater.InitPortState | fboss/agent/LookupClassUpdater.cpp:104-116 | clears the port and zeroes the counter of each of its classes, leaving other ports alone |
| LookupClassUpdater.Updater.UpdateNeighborClassID | fboss/agent/LookupClassUpdater.cpp:116-170 | gives the neighbor its class and counts it, failing exactly where a CHECK does; does nothing on a port without classes |
| LookupClassUpdater.Updater.RemoveClassID | fboss/agent/LookupClassUpdater.cpp:63-95 | gives a holder up, failing exactly where a CHECK does; does nothing on a port without classes |
| LookupClassUpdater.Updater.RemoveNeighborFromLocalCache | fboss/agent/LookupClassUpdater.cpp:486-509 | removes a holder, failing exactly where a CHECK does |
| LookupClassUpdater.Updater.ProcessNeighborChanged | fboss/agent/LookupClassUpdater.cpp:200-240 | adds, removes, moves or does nothing, as the model has it for a changed entry |
| LookupClassUpdater.Updater.ProcessNeighborUpdate | fboss/agent/LookupClassUpdater.cpp:242-289 | handles one delta as the model does; what that is, the skipped ones included, is `DeltaFollows` |
| LookupClassUpdater.Updater.RestoreEntry | fboss/agent/LookupClassUpdater.cpp:511-534 | restores a holder with its class, failing exactly where the CHECK does |
| LookupClassUpdater.Updater.RebuildPort | fboss/agent/LookupClassUpdater.cpp:536-572 | restores every entry of the tables that is on the port with a class, and succeeds exactly when those that share MAC and VLAN share the class |
| LookupClassUpdater.Updater.ClearClassIDs | fboss/agent/LookupClassUpdater.cpp:291-328 | gives up every entry of the tables that is on the port with a class, in some order, failing exactly where a CHECK does |
| LookupClassUpdater.Updater.RepopulateClassIDs | fboss/agent/LookupClassUpdater.cpp:329-352 | gives every entry of the tables on the port a class, resolved or not |
| LookupClassUpdater.Updater.ChangePortClasses | fboss/agent/LookupClassUpdater.cpp:413-465 | is the class-list change of the model, with the entries read from the tables |
| NexthopProbes.UseCountsExact | fboss/agent/ResolvedNexthopProbeScheduler.cpp:21-50 | after every sequence of updates no CHECK failed, and each next hop has as use count the number of references from resolved forwarding routes of monitored clients without a standalone RIB and forwarding labels of unmonitored ones, and a count and a probe exactly when there is one |
| NexthopProbes.RemoveAllCounts | fboss/agent/ResolvedNexthopProbeScheduler.cpp:38-49 | the CHECK on removal holds throughout exactly when nothing unused is removed |
| NexthopProbes.DeltaReferences | fboss/agent/ResolvedNexthopMonitor.h:52-81 | what is collected from a delta is exactly what the tables gain and lose |
| NexthopProbes.ProbesFollowNeighbors | fboss/agent/ResolvedNexthopProbeScheduler.cpp:52-68 | an update that changes such references or neighbors leaves a probe running exactly when its next hop has no neighbor entry; any other leaves counts and probes as they were |
| NexthopProbes.IntendedExactly | fboss/agent/ResolvedNexthopMonitor.cpp:123-132 | after every sequence of updates the use counts are those intended, routes and labels of monitored clients, if and only if for each next hop labels of monitored and of unmonitored clients refer to it equally often |
| NexthopProbes.IntendedWithoutLabels | fboss/agent/ResolvedNexthopMonitor.h:52-88 | so they are when no label forwards to next hops |
| NexthopProbes.MonitoredRouteProbed | fboss/agent/ResolvedNexthopMonitor.h:53-88 | one update in which a monitored client adds a resolved route gives its next hop a count of one and a probe, which runs exactly when it has no neighbor entry |
| NexthopProbes.MonitoredLabelMissed | fboss/agent/ResolvedNexthopMonitor.cpp:123-132 | one update by which a monitored client adds a label leaves its next hop with no count and no probe |
| ResolvedNexthopMonitor.ProbeScheduler.ProcessChangedResolvedNexthops | fboss/agent/ResolvedNexthopProbeScheduler.cpp:21-50 | all additions, then all removals, failing exactly where the CHECK does |
| ResolvedNexthopMonitor.ProbeScheduler.Schedule | fboss/agent/ResolvedNexthopProbeScheduler.cpp:52-68 | starts or stops every probe by its neighbor entry |
| ResolvedNexthopMonitor.Monitor.Process | fboss/agent/ResolvedNexthopMonitor.h:75-81 | a change is a removal of the old references and an addition of the new |
| ResolvedNexthopMonitor.Monitor.StateUpdated | fboss/agent/ResolvedNexthopMonitor.cpp:63-121 | one update of a run: the use counts follow the delta and the probes are gone over when routes, labels or neighbors changed |

## Left out

- Hardware exceptions in `applyUpdate` end the process and are not modelled; neither is notifying observers.
- Generation numbers are unbounded; their wrap-around after 2^32 updates is not modelled. The same holds for use counts and reference counts.
- The route table set-up that is applied directly at start, outside the update queue.
- Update functions see the contents of a state only, not its identity or generation.
- The periodic transmission machine, and when exactly a controller asks to transmit: they only time the requests that `TransmitMachine` limits.
- Removing or reconfiguring aggregate ports while LACP runs: membership is fixed in a run, since the selection map is never cleared.
- Durations of timers and epochs: a timer that is set may fire at any time.
- Neighbor closures assume that the VLAN exists and the address stays attached; the branches that drop a closure otherwise are not modelled.
- An entry schedules its timer at once; the source posts that to the event base.
- The UNVERIFIED neighbor state, which nothing sets.
- Deltas that change a port's class list and its neighbors at once: the model takes them one after the other.
- Changing the set of monitored clients while routes refer to next hops.
- Packet handlers, Thrift, configuration, platform code, tunnels, statistics and logging.
