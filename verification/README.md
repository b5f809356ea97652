# A verified model of the OCS instance registry and its neighbours

This project models, in Dafny, the parts of the REIS OS repository whose behaviour depends on order,
crashes and races, and proves what they promise.

**The instance registry** (`app/ocs_instances`, modules `Instance*`). Mission-scoped bindings with a status
machine, a journal, and a five-state saga that spans three stores without a common transaction: the registry
tables, Hazel and the lease manager. `InstanceProtocol` writes every call of the service, the bridge and cold
recovery as a step machine: a program counter with the local variables the call holds, one step per access to a
store. `InstanceRuns` interleaves any number of such calls with crashes, lost threads and lease events;
`InstanceProperties`, `InstanceSettlement` and `InstanceBacking` state what every reachable world satisfies, the last
two with the exact step that breaks what the saga states seem to promise (`InstanceSagaWrites` and `InstanceRowWrites`
read off a program counter what its step writes). `InstanceCheckpointing`, `InstanceCheckpointOutcome`,
`InstanceCheckpointReturns`, `InstanceReplacing`, `InstanceConvergence` and
`InstanceRecoveryReturns` say what retries and recovery end in. `InstanceStore` and `InstanceServices` are the classes
themselves: their methods update fields in place, and each is proved to reach exactly the state that the step machine
reaches.
`InstanceWitnesses` and `InstanceLateCheckpoint` hold concrete states for the claims that do not hold as one would
expect: each satisfies the invariant, and so does the call in it, but for a version it quotes.

**The read model** (`InstanceViews`, `InstanceProofSteps`, `KeysetPages`) is proved against that same protocol.
**The causal mission** (`CausalMission`, `ConcurrentMissions`, `MissionRecovery`) covers the chain of digests, the shared fleet, restart in
mid-flight, and longitudinal operation, over an arbitrary cast of distinct actors. **Trial 2** (`Trial2`) is the
handoff state machine. `Economics`, `Signals` and `EventLog` are the governor, the path from candles to a sized
signal, and the event log with its feed and projections.

## How the source is represented

- A digest is the term it digests: `BindingOf(request)`, `Sha(event)`, `HashOf(payload)`. Equal digests mean equal
  inputs, nothing else. A run id is the lineage (organization, mission, OCS). A uuid is the next unused number.
- A transaction of the registry, of Hazel or of the lease manager is one atomic step. `advance_action_saga` and the
  read-back of the row it has just updated are one step.
- Hazel is one versioned register per run (`app/universal_kernel/hazel_continuity.py`); the log keeps every accepted
  write so that properties can speak of it. A lease is `usable` while it is neither revoked nor outside its window
  (`app/universal_kernel/governance.py`).
- `recent` answers the query for the latest replacement saga of a binding by update time.
- Reads and checks of columns that are constant per binding (host, digests of the challenge, identity guard, context,
  policy and trace of a lease) are guards without effect on the properties and are not represented.
- In the mission modules a lock region is one step, a worker is a value with a generation, and the parameters
  `answers` and `starts` say whether a process answers or comes up. The order of actors is any sequence of distinct
  actors that have a role.
- Binding ids in `KeysetPages` are numbers that stand for their order. `Signals` and `Economics` compute over the
  reals.

## What turned out differently from what one would expect

- **A quoted version that lies ahead.** A checkpoint commits the version it computed from the row it read, but
  compares only `expected_version` with the row at commit time. A call that quotes a later version commits an old
  checkpoint over newer ones (`InstanceLateCheckpoint.FutureVersionLosesCheckpoints`: Hazel then leads by two).
  `InstanceSteps.CheckpointExtendsExactlyWhen` says exactly when a commit extends the checkpoint. `acknowledge` has
  the same gap (`LateAckReopens`, `AckActivatesExactlyWhen`). The results over all runs therefore admit only calls
  that quote a version their binding has already reached when the call starts (`InstanceRuns.EntersWell`); stale
  versions are allowed.
- **EFFECT_APPLIED of a replacement does not imply the effect.** Cold recovery marks the saga before it validates the
  event it has adopted (`app/ocs_instances/recovery.py:117-129`). `InstanceBacking.BackedByStep` says exactly when that
  mark gets ahead of Hazel: recovery finds the saga at LEASE_RESERVED, the predecessor not yet replaced, and something
  other than its replacement last in Hazel. No other step of any call can do it, every run without that step keeps
  EFFECT_APPLIED backed (`AppliedMeansWritten`), and what recovery has then adopted would have failed its own later
  check (`PrematureAdoptsSomethingElse`). `OvertakenSagaOverstates` is a concrete case. For checkpoints the effect is
  certain from EFFECT_APPLIED on.
- **LEASE_FINALIZED does not always imply a settled lease.** The replay branch of `replace_instance` advances
  whatever saga is stored under the key it is given (`ForeignSagaFinalized`). `SettledByStep` says exactly which step
  does that, and `OwnKeySettles` that a caller who keeps to keys of its own never causes it.
- **Finalizing releases single-use leases only**; a lease with several uses stays consumed. `Settled` is the state a
  successful finalization leaves.
- **A proof of recovery can become incomplete again** before the successor's own checkpoint: a second replacement saga
  of the same predecessor hides the finished one. `InstanceProofSteps.ProofByStep` says exactly which step does that,
  as a condition on the program counter and the state before it. It can only come from a call that read the
  predecessor while it was CHECKPOINTED, or that drives another saga of it; without such a call in flight the proof
  holds until the successor's first own checkpoint, whatever is called later (`ProofHoldsUntilCheckpoint`).
  `InstanceWitnesses.RivalHidesProof` is a run in which two calls carry one request under two keys.
- **SÝNESIS can be followed**, but only by another SÝNESIS instance: the implementer's route names no source
  (`Trial2.SynesisIsLast`, and `Trial2.SynesisFollowsSynesis` for a run).

## Model

| member | source | states |
|---|---|---|
| InstanceStore.InstanceBindingStore.Create | app/ocs_instances/store.py:108-191 | one transaction: replay by idempotency key, one live lineage head, a checkpointed predecessor of the same lineage, unique generation; otherwise the tables are unchanged |
| InstanceStore.InstanceBindingStore.Transition | app/ocs_instances/store.py:225-333 | compare-and-swap on the version, the transition table, replay of the same request, one journal row; on error nothing is written |
| InstanceStore.InstanceBindingStore.CommitReplacement | app/ocs_instances/store.py:335-478 | predecessor and successor change together with two journal rows, or nothing changes |
| InstanceStore.InstanceBindingStore.BeginSaga | app/ocs_instances/store.py:556-597 | a saga row is inserted once per key; the same request returns the state it has reached, another one is refused |
| InstanceStore.InstanceBindingStore.AdvanceSaga | app/ocs_instances/store.py:609-632 | advances from the expected state, accepts the target state, refuses every other |
| InstanceStore.InstanceBindingStore.MaxGeneration | app/ocs_instances/store.py:211-223 | the loop finds the highest generation of the lineage |
| InstanceStore.HazelRegister.PersistState | app/universal_kernel/hazel_continuity.py:94-142 | accepts exactly the next version with the current event as predecessor |
| InstanceStore.AuthorityLeaseManager.ReserveUse | app/universal_kernel/governance.py:459-484 | one use per idempotency key, within the limit, and the lease is consumed |
| InstanceStore.AuthorityLeaseManager.FinalizeLease | app/universal_kernel/governance.py:403-414 | releases a consumed single-use lease, leaves others consumed, refuses an unused one |
| InstanceServices.OCSInstanceBinder.PrepareInstance | app/ocs_instances/service.py:71-188 | leaves the three stores and returns what the step machine run to its end does, on every branch and error |
| InstanceServices.OCSInstanceBinder.EnsureHazel | app/ocs_instances/service.py:190-253 | adopts the matching Hazel event or writes version one, reads it back and commits PERSISTED, as the step machine does |
| InstanceServices.OCSInstanceBinder.ReconcileLease | app/ocs_instances/service.py:730-740 | reserves again and finalizes a lease that is not yet released, then goes on as the caller asks |
| InstanceServices.OCSInstanceBinder.CheckpointInstance | app/ocs_instances/service.py:255-429 | replay, saga, Hazel, commit and lease in place: the same world and outcome as the step machine run to its end |
| InstanceServices.OCSInstanceBinder.ReplaceInstance | app/ocs_instances/service.py:431-660 | all three branches of a replacement in place: the same world and outcome as the step machine run to its end |
| InstanceServices.SagaRunner.DriveSaga | app/ocs_instances/service.py:352-429 | adopt or write the Hazel event, then climb the ladder step by step, from whatever state the saga is in |
| InstanceServices.OCSInstanceRecovery.RecoverInstance | app/ocs_instances/recovery.py:41-67 | cold recovery in place: the same world and outcome as the step machine run to its end |
| InstanceServices.OCSInstanceRecovery.ReconcileReplacement | app/ocs_instances/recovery.py:69-191 | finishes the predecessor's latest replacement saga as the step machine does |
| InstanceServices.OCSInstanceRecovery.Latest | app/ocs_instances/recovery.py:266-280 | the loop finds the binding with the highest generation of the lineage |
| InstanceServices.WorkInstanceBridge.Attach | app/ocs_instances/work_bridge.py:33-63 | binds a platform instance to a PERSISTED row through one transition, and refuses a foreign work item |
| InstanceServices.WorkInstanceBridge.Acknowledge | app/ocs_instances/work_bridge.py:65-97 | activates a BOUND row whose platform, generation and bootstrap digest are quoted |
| InstanceSteps.StepLands | app/ocs_instances/service.py:71-660 | every step of every call keeps the invariant, keeps what the call relies on, and only moves the registry forward |
| InstanceCalls.CallInvLater | app/ocs_instances/service.py:255-660 | what a call in flight relies on survives any step of any other call |
| InstanceRuns.ExecOk | app/ocs_instances/service.py:255-660 | over any interleaving of calls with crashes and lease events the invariant holds and nothing moves back |
| InstanceRuns.ReachableInv | app/ocs_instances/recovery.py:41-191 | every reachable world satisfies the invariant |
| InstanceProperties.GenerationsAreConsecutive | app/ocs_instances/store.py:108-191 | below every binding each generation from 1 on exists exactly once in its lineage |
| InstanceProperties.OneWorker | app/ocs_instances/store.py:335-478 | in every reachable world a lineage has at most one PERSISTED, BOUND, ACTIVE or CHECKPOINTED binding, and all its bindings share profile, namespaces and authority |
| InstanceProperties.SuccessorAndPredecessor | app/ocs_instances/store.py:130-160 | a PREPARED successor has a CHECKPOINTED predecessor, any later successor a REPLACED one, one generation apart |
| InstanceProperties.HazelLead | app/ocs_instances/service.py:352-413 | Hazel leads the lineage's only holder by zero or one, and still holds the holder's own checkpoint at its version |
| InstanceProperties.CheckpointSagaMeans | app/ocs_instances/service.py:382-429 | EFFECT_APPLIED implies that Hazel has the payload, LOCAL_COMMITTED that the journal has the commit under the saga's key, always that the lease is used |
| InstanceProperties.ReplacementSagaMeans | app/ocs_instances/service.py:617-659 | READBACK_VERIFIED implies the Hazel event, LOCAL_COMMITTED the journalled replacement, EFFECT_APPLIED the successor |
| InstanceBacking.BackedByStep | app/ocs_instances/recovery.py:85-131 | a step keeps EFFECT_APPLIED backed by Hazel for all replacements if and only if it is not recovery's mark of a saga whose unreplaced predecessor has something else last in Hazel |
| InstanceBacking.PrematureAdoptsSomethingElse | app/ocs_instances/recovery.py:117-129 | what recovery has adopted at such a mark fails the validation it makes afterwards |
| InstanceBacking.AppliedMeansWritten | app/ocs_instances/recovery.py:69-191 | over every run without that step, EFFECT_APPLIED of a replacement implies the Hazel event |
| InstanceBacking.ReplacedMeansWritten | app/ocs_instances/store.py:335-478 | over every run, a REPLACED binding has its replacement in Hazel |
| InstanceSagaWrites.StepWrites | app/ocs_instances/store.py:556-632 | the sagas after any step are those before it with the one write its program counter announces |
| InstanceRowWrites.StepRows | app/ocs_instances/store.py:225-478 | every row after any step is as before or moved by the one transition or commit its program counter announces; new rows are PREPARED |
| InstanceProperties.SagasOnlyClimb | app/ocs_instances/store.py:609-632 | along every run a saga keeps its columns and never moves back |
| InstanceProperties.JournalReplays | app/ocs_instances/store.py:634-662 | folding a binding's journal, with versions 1, 2, .. and matching statuses, yields its current status and version |
| InstanceProperties.CreateReplays | app/ocs_instances/store.py:108-191 | repeating a create after any further run returns the binding as it is by then and writes nothing |
| InstanceProperties.TransitionReplays | app/ocs_instances/store.py:240-262 | repeating a transition after any further run writes nothing |
| InstanceProperties.CommitReplays | app/ocs_instances/store.py:335-478 | repeating commit_replacement after any further run writes nothing |
| InstanceProperties.BeginReplays | app/ocs_instances/store.py:556-597 | repeating begin_action_saga after any further run returns the state reached and writes nothing |
| InstanceSteps.CheckpointExtendsExactlyWhen | app/ocs_instances/service.py:400-413 | a commit extends the checkpoint by one if and only if the call quotes the version it has read; otherwise no checkpoint is gained |
| InstanceSteps.AckActivatesExactlyWhen | app/ocs_instances/work_bridge.py:75-97 | an acknowledgement that goes through finds the row BOUND if and only if it quotes the version it has read |
| InstanceLateCheckpoint.FutureVersionLosesCheckpoints | app/ocs_instances/service.py:400-413 | a concrete invariant world and call that, quoting a version it has not read, commits version two over version four |
| InstanceWitnesses.LateAckReopens | app/ocs_instances/work_bridge.py:75-97 | a concrete invariant world and call that turns a CHECKPOINTED row ACTIVE under its waiting successor |
| InstanceWitnesses.ForeignSagaFinalized | app/ocs_instances/service.py:461-473 | a world that a run leads to, everything settled in it, and a replay that finalizes another saga while its single-use lease is consumed |
| InstanceSettlement.SettledByStep | app/ocs_instances/service.py:461-473 | a step keeps every LEASE_FINALIZED saga's lease settled if and only if it is not the replay branch finalizing a foreign saga |
| InstanceSettlement.OwnKeySettles | app/ocs_instances/service.py:461-473 | under a key that names this replacement's saga or none, a step never leaves a LEASE_FINALIZED saga unsettled |
| InstanceSettlement.FinalizedMeansSettled | app/ocs_instances/service.py:421-428 | over every run without that step, LEASE_FINALIZED implies a settled lease |
| InstanceFinish.StepDecreases | app/ocs_instances/service.py:255-660 | every call ends: each step lowers a bound on the steps left |
| InstanceFinish.CutFinishes | app/ocs_instances/recovery.py:41-191 | running on from any cut ends where the uncut call ends |
| InstanceCheckpointing.CheckpointConverges | app/ocs_instances/service.py:255-429 | from any world, any number of cut calls with the same arguments followed by one uncut call ends in the world and outcome of one uncut call |
| InstanceCheckpointOutcome.CheckpointDone | app/ocs_instances/service.py:255-429 | a checkpoint under a fresh key that returns, after any cuts: the row moves by one, Hazel stands one past the old checkpoint, one journal row, saga finalized, lease settled |
| InstanceCheckpointReturns.CheckpointReturnsExactlyWhen | app/ocs_instances/service.py:265-413 | it returns if and only if the caller is the bound worker in scope with a valid lease that has a use left, quotes the current version, and Hazel holds nothing else one ahead |
| InstanceReplacingSteps.StepReaches | app/ocs_instances/recovery.py:69-191 | every step of a retry or a recovery leads from one stage of the replacement to the same or a later stage |
| InstanceConvergence.ReplacementConverges | app/ocs_instances/recovery.py:41-191 | cut the replacement anywhere, retry it and recovery any number of times: one uncut recovery ends with everything done once, and another changes nothing |
| InstanceConvergence.ReplaceEnds | app/ocs_instances/service.py:573-660 | uninterrupted, the call that created the successor ends in that same world |
| InstanceConvergence.JobArises | app/ocs_instances/service.py:564-573 | the step of replace_instance that creates the successor establishes what the convergence result starts from |
| InstanceConvergence.OvertakenRecoveryGivesUp | app/ocs_instances/recovery.py:117-129 | with Hazel one ahead by something else, recovery raises and has only marked the saga EFFECT_APPLIED |
| InstanceRecoveryReturns.RecoveryReturnsExactlyWhen | app/ocs_instances/recovery.py:69-191 | with the successor created and its saga begun, recovery returns if and only if Hazel is not one ahead with something other than that replacement |
| InstanceWitnesses.ConvergenceStarts | app/ocs_instances/service.py:564-573 | a concrete world that satisfies the invariant and everything convergence starts from |
| InstanceWitnesses.OvertakenSagaOverstates | app/ocs_instances/recovery.py:117-129 | a concrete world in which recovery gives up and leaves the saga EFFECT_APPLIED without the effect |
| InstanceViews.WorkerNeverMisreported | app/command/instance_views.py:402-460 | the view names a generation if and only if the lineage has an undisputed worker of it; it is then the latest and the only nonterminal binding |
| InstanceViews.ProvenExactlyWhen | app/command/instance_views.py:494-532 | a complete proof amounts to a REPLACED predecessor, a checkpoint one higher and a finalized saga |
| InstanceProofSteps.ProofByStep | app/command/instance_views.py:494-532 | a step keeps a complete proof if and only if it is neither the successor's own checkpoint commit nor a write that leaves another saga of the predecessor unfinished and latest |
| InstanceProofSteps.ProofHoldsUntilCheckpoint | app/command/instance_views.py:494-532 | with no call in flight that read the predecessor before it was replaced or drives another saga of it, along every run the proof is complete if and only if the successor has taken no checkpoint of its own |
| InstanceViews.ProofStays | app/command/instance_views.py:494-532 | along any run a complete proof can only be lost to those two causes: nothing else it is made of ever changes |
| InstanceWitnesses.RivalHidesProof | app/command/instance_views.py:494-553 | a run with two keys for one replacement request in which a complete proof is hidden without a checkpoint |
| InstanceViews.ReplacementIsProven | app/command/instance_views.py:494-532 | where a replacement ends, the view reports its recovery as proven |
| KeysetPages.NothingTwice | app/command/instance_views.py:65-127 | for every filter and any change between pages, rows come in order and none comes twice |
| KeysetPages.PagesPartition | app/command/instance_views.py:65-127 | for mission and OCS filters the pages yield the first page's snapshot exactly, and end once enough pages are read |
| KeysetPages.ListingIs | app/command/instance_views.py:295-344 | the listing holds exactly the matching rows created by the snapshot, each once, newest first |
| CausalMission.RunAllContributes | app/distributed_runtime/causal_mission.py:125-143 | the run of any cast succeeds and contributes exactly the roles of its actors |
| CausalMission.RunAllCompletes | app/distributed_runtime/causal_mission.py:145-160 | a run of all actors passes the completeness check |
| CausalMission.CausalChains | app/distributed_runtime/causal_mission.py:392-442 | each receipt's input digest is the previous receipt's output digest, from the initial payload on |
| CausalMission.AblationIsDetected | app/distributed_runtime/causal_mission.py:444-453 | leaving one actor out of the receipts fails the completeness check if and only if it belongs to the cast |
| ConcurrentMissions.FleetStaysOk | app/distributed_runtime/concurrent_missions.py:78-156 | over any interleaving of any threads: held and free permits add up to the limit, active missions are distinct and within it, and what completes has the payload and receipts of running alone |
| ConcurrentMissions.AllReleased | app/distributed_runtime/concurrent_missions.py:78-156 | once every thread has ended, every permit is back and no mission is active |
| ConcurrentMissions.PoolIsNeverRefused | app/distributed_runtime/concurrent_missions.py:158-172 | with at most as many threads at work as permits and distinct missions, no thread is refused |
| ConcurrentMissions.ExecuteManyCompletes | app/distributed_runtime/concurrent_missions.py:158-172 | on an idle fleet, every mission of a batch whose workers answer completes with the payload and receipts of running alone once it has been scheduled often enough, whatever becomes of the others |
| ConcurrentMissions.SharedFleet.ExecuteMission | app/distributed_runtime/concurrent_missions.py:78-156 | gives back its permit and its place on every exit; completes with the payload of running alone exactly when all workers answer |
| MissionRecovery.GenerationFenceRegistry.Advance | app/distributed_runtime/recovery.py:74-79 | advances a fence by one if and only if the quoted generation is current |
| MissionRecovery.RecoverableFleet.RestartActor | app/distributed_runtime/recovery.py:244-280 | replaces the worker one generation higher, or leaves the fence at most one above the binding |
| MissionRecovery.RecoverableFleet.ExecuteWithMidflightRecovery | app/distributed_runtime/recovery.py:282-369 | for every failed actor, payload and receipts are those of a run without failure, and exactly that actor is one generation on |
| MissionRecovery.RecoverableFleet.ExerciseLiveStaleWriterFencing | app/distributed_runtime/recovery.py:132-242 | a success shows the old generation denied and the new one admitted; otherwise the binding stays |
| MissionRecovery.LongitudinalDistributedOperation.RunCycle | app/distributed_runtime/longitudinal.py:84-120 | a cycle on a healthy fleet passes every check if and only if its replacement starts, with ids not seen before |
| MissionRecovery.LongitudinalDistributedOperation.ExecuteCycles | app/distributed_runtime/longitudinal.py:64-148 | each fence ends at its initial generation plus the actor's failures in the schedule, with one record per cycle and distinct missions and traces; no fence ever falls |
| MissionRecovery.NumberedDiffer | app/distributed_runtime/longitudinal.py:85 | mission ids of different cycles differ |
| MissionRecovery.CyclePasses | app/distributed_runtime/longitudinal.py:151-187 | whatever a recovered mission returns passes the cycle's validation and reconstruction |
| Trial2.Trial2Store.BindInstance | app/single_surface_trial/trial2_store.py:202-224 | the next epoch and generation of the OCS, active only when the mission has nobody |
| Trial2.Trial2Store.IssueHandoff | app/single_surface_trial/trial2_store.py:242-267 | a handoff row along a listed route from the checkpointed active instance to a BOUND target |
| Trial2.Trial2Store.AcceptHandoff | app/single_surface_trial/trial2_integrity.py:49-137 | all checks, then claim, quiesce, activate and receipt in one transaction; on error nothing changes |
| Trial2.Trial2Store.ApplySyntheticEffect | app/single_surface_trial/trial2_integrity.py:234-301 | one mutation per idempotency key, none on a replay, refused without the active epoch and authority |
| Trial2.HandoffsFormSimplePath | app/single_surface_trial/trial2_integrity.py:49-137 | the accepted handoffs form a path without repetition that ends at the only ACTIVE binding; both counters are its length, within the budget |
| Trial2.SourceIsLeft | app/single_surface_trial/trial2_integrity.py:56-84 | after one acceptance every other handoff from that source is refused for ever |
| Trial2.AtMostOneWins | app/single_surface_trial/trial2_integrity.py:86-105 | of all accepts that read the same mission version at most one claims it |
| Trial2.EpochsAreConsecutive | app/single_surface_trial/trial2_store.py:202-224 | per OCS, generation and epoch are one number, running from 1 to the current epoch, each once |
| Trial2.MutationsCountKeys | app/single_surface_trial/trial2_integrity.py:234-301 | the mutation counts returned add up to the number of keys stored |
| Trial2.SynesisIsLast | app/single_surface_trial/trial2_store.py:139-143 | once SÝNESIS is the active OCS it stays so |
| Trial2.SynesisFollowsSynesis | app/single_surface_trial/trial2_store.py:139-143 | a run in which one SÝNESIS instance takes over from another by the implementer's route |
| Trial2.RecoverExactlyWhen | app/single_surface_trial/trial2_integrity.py:139-232 | a restart is accepted if and only if the active binding has a checkpoint, the newest epoch and its authority |
| Economics.GovernorBounds | app/trading_runtime/economics.py:39-94 | in any sequence of operations the reserved total is the sum of outstanding costs, every limit holds up to the overrun, and the totals are exactly what was reconciled |
| Economics.SettledOnce | app/trading_runtime/economics.py:69-94 | a reservation reconciled or rolled back is refused ever after |
| Economics.EconomicGovernor.ReserveCost | app/trading_runtime/economics.py:39-67 | refuses exactly what exceeds a limit, strong calls counted together with those outstanding |
| Economics.EconomicGovernor.ReconcileCost | app/trading_runtime/economics.py:69-86 | frees the expected cost and charges the actual one to all three totals |
| Signals.OpportunityShape | app/trading_runtime/strategy.py:36-53 | takes a side if and only if the averages differ on 20 candles with positive entry and range; the stop is on the losing side and the reward twice the risk |
| Signals.StrategyToSize | app/trading_runtime/runtime.py:17-82 | with default policies a side is never held for RISK, held for NO_EDGE if and only if the stop is within 0.1% of the entry, and otherwise loses exactly 1% of the capital at its stop with a position between 0.2 and 10 times the capital |
| Signals.PositionBounds | app/trading_runtime/risk.py:16-25 | one percent over the distance times the entry lies in those bounds |
| EventLog.AppendKeeps | app/command/event_store.py:54-117 | every stream keeps sequences 1..k, keys and ids stay unique |
| EventLog.AppendTwice | app/command/event_store.py:54-117 | appending an event again, at any later time, changes nothing |
| EventLog.FeedAgreesWithRebuild | app/command/realtime.py:33-46 | however appends and polls interleave, the folded batches equal the rebuild of the log up to the cursor |
| EventLog.PollsCatchUp | app/command/realtime.py:33-46 | enough polls reach the end of the log and its rebuild |
| EventLog.OcsShowsLast | app/command/projections.py:34-76 | an OCS is shown exactly when the log projects it, with its last event |
| EventLog.HealthNeedsEvidence | app/command/projections.py:34-76 | a health status other than unknown is backed by an event with evidence |
| EventLog.CommandEventStore.AppendEvent | app/command/event_store.py:54-117 | validates, replays, checks the sequence and inserts, or leaves the rows unchanged |
| EventLog.CommandProjector.RebuildFrom | app/command/projections.py:28-32 | the loop yields the fold of the whole log |

## Left out

- InstanceRuns.ReachableInv: covers calls that quote any version up to the one their binding has when the call starts, because a later one really breaks the lead of Hazel (see above).
- InstanceConvergence.ReplacementConverges: when recovery, not the original call, wrote the Hazel event, the end differs from the uninterrupted one in the trace name inside that event; the lemma says for which trace they are equal.
- InstanceConvergence.ReplacementConverges: starts at the creation of the successor with the saga at LEASE_RESERVED, and between the attempts no other call and no lease event happens, on this or any other lineage.
- InstanceCheckpointing.CheckpointConverges: likewise, between the attempts no other call and no lease event happens.
- InstanceProperties.ReplacementSagaMeans: the effect is stated from READBACK_VERIFIED on, because at EFFECT_APPLIED it holds exactly under the condition of InstanceBacking.BackedByStep.
- InstanceSettlement.FinalizedMeansSettled: says settled rather than released, because leases with several uses are not released.
- InstanceRecoveryReturns.RecoveryReturnsExactlyWhen: speaks of the moment after the successor was created, with its profile and lease authority unchanged; drift of either stops recovery before the saga.
- InstanceWitnesses.RivalHidesProof: the run starts from an invariant world, not from the empty registry; the same holds for the other concrete states.
- KeysetPages.PagesPartition: page sizes are at least one, as the service enforces, and ids are compared as numbers.
- InstanceRuns.ExecOk: a lease only becomes unusable, so the opening of its not-before window is not an event; the two statements of advance_action_saga are one step.
- Signals.StrategyToSize: reals without float rounding; confidence, holding time and the rounding of published values are not modelled.
- ConcurrentMissions.PoolIsNeverRefused: assumes distinct mission ids, since a repeated id is refused by design.
- CLOSED, REVOKED and HOLD of a binding: no service, bridge or recovery call issues them.
- The operational phases, lineage, comparison and recovery-center projections of the view, which read one row each.
- Bootstrap envelopes as returned values, nonces, challenge hashes and the signing of leases.
- Field-by-field validation of leases, profiles and the identity guard beyond the authority reference, the action, the scope and usability.
- SQL, JSON, cursors as base64 text, HTTP routes, wall-clock columns, processes, pipes and time-outs.
- The tamper checks of Trial 2 that compare stored digests with recomputed ones, and its observability rows.
- The older Trial 2 variant in app/single_surface_trial/store.py, and the smaller fleets of app/distributed_runtime/pair.py, pipeline.py, fleet.py and worker.py.
- Cognitive validation, expertise, physiology, migration and market packages, which are tables and single-branch checks.
