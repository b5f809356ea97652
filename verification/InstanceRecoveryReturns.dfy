/**
 When cold recovery can finish a replacement: exactly when Hazel has not been
 overtaken by something other than that replacement.
 */
module InstanceRecoveryReturns {
  import opened Prelude
  import opened InstanceContracts
  import opened InstanceTables
  import opened InstanceEffects
  import opened InstanceProtocol
  import opened InstanceChain
  import opened InstanceInvariant
  import opened InstanceCalls
  import opened InstanceProperties
  import opened InstanceFinish
  import opened InstanceReplacing
  import opened InstanceConvergence

  /** Hazel already holds a replacement of the predecessor by the successor. */
  predicate Ahead(w: World, job: Job, e: HazelEvent) {
    && Run(w.hazel, job.p.lineage) != [] && Last(Run(w.hazel, job.p.lineage)) == e
    && IsReplacementOf(e, job.p, job.s, job.p.checkpointVersion + 1)
  }

  function ColdPlan(job: Job): Plan {
    RecoveryPlan(job.p, job.s, job.key, job.s.leaseId)
  }

  function SagaMoved(w: World, job: Job, st: SagaState): World
    requires job.key in w.t.sagas
  {
    w.(t := w.t.(sagas := w.t.sagas[job.key := w.t.sagas[job.key].(state := st)]))
  }

  lemma Moves(w: World, job: Job, from: SagaState, to: SagaState)
    requires job.key in w.t.sagas && w.t.sagas[job.key].kind == ReplacementSaga && w.t.sagas[job.key].binding == job.p.id
    requires job.p.id in w.t.recent && w.t.recent[job.p.id] == job.key && w.t.sagas[job.key].state == from
    ensures AdvanceSaga(w.t, job.key, from, to) == Ok((SagaMoved(w, job, to).t, to))
  {
    assert w.t.recent[job.p.id := job.key] == w.t.recent;
  }

  /** The saga row of the job, in a world the driver has moved. */
  predicate Mine(w: World, job: Job, st: SagaState) {
    && job.key in w.t.sagas && w.t.sagas[job.key].kind == ReplacementSaga && w.t.sagas[job.key].binding == job.p.id
    && w.t.sagas[job.key].state == st
    && job.p.id in w.t.recent && w.t.recent[job.p.id] == job.key
  }

  /** Adopting the event brings the saga to READBACK_VERIFIED. */
  lemma Adopts(w: World, job: Job, e: HazelEvent)
    requires Mine(w, job, LeaseReserved) && Ahead(w, job, e) && job.s.lineage == job.p.lineage
    ensures Finish(w, Drive(DriveRecover(ColdPlan(job), LeaseReserved)))
            == Finish(SagaMoved(SagaMoved(w, job, EffectApplied), job, ReadbackVerified), Drive(Reload(ColdPlan(job), e)))
  {
    hide Finish, AdvanceSaga;
    var plan, w1 := ColdPlan(job), SagaMoved(w, job, EffectApplied);
    Moves(w, job, LeaseReserved, EffectApplied);
    Moves(w1, job, EffectApplied, ReadbackVerified);
    FinishDrive(w, DriveRecover(plan, LeaseReserved));
    FinishDrive(w, DriveEffect(plan, LeaseReserved, e));
    FinishDrive(w1, DriveReadback(plan, EffectApplied, e));
    FinishDrive(w1, DriveVerify(plan, EffectApplied, e));
  }

  function Args(job: Job, e: HazelEvent): CommitArgs {
    RecoveryArgs(ColdPlan(job), e, job.p, job.s)
  }

  /** The world after the commit. */
  ghost function Committed(w: World, job: Job, e: HazelEvent): World
    requires CommitReplacement(w.t, Args(job, e)).Ok?
  {
    w.(t := CommitReplacement(w.t, Args(job, e)).value.0)
  }

  /** The pair of rows can be committed. */
  ghost predicate Committable(w: World, job: Job) {
    && RowsReady(w, job) && job.p.id != job.s.id && SameLineage(job.s, job.p) && job.p.id == job.s.predecessor.value
    && InstanceTables.Lookup(w.t.journal, job.key).None? && InstanceTables.Lookup(w.t.journal, job.key + ":successor").None?
  }

  lemma CommitWorks(w: World, job: Job, e: HazelEvent)
    requires Committable(w, job)
    ensures CommitReplacement(w.t, Args(job, e)).Ok?
    ensures var w' := Committed(w, job, e);
            && w'.t.bindings == w.t.bindings[job.p.id := CommittedPredecessor(job.p)][job.s.id := CommittedSuccessor(job.s, Args(job, e))]
            && w'.t.sagas == w.t.sagas && w'.t.recent == w.t.recent && w'.hazel == w.hazel && w'.leases == w.leases
  {
    hide InstanceTables.Lookup, SameLineage;
  }

  lemma Commits(w: World, job: Job, e: HazelEvent)
    requires Committable(w, job) && job.key in w.t.sagas
    ensures CommitReplacement(w.t, Args(job, e)).Ok?
    ensures Finish(w, Drive(Reload(ColdPlan(job), e)))
            == Finish(Committed(w, job, e),
                      Drive(DriveLocal(ColdPlan(job), w.t.sagas[job.key].state, CommittedSuccessor(job.s, Args(job, e)))))
  {
    hide Finish, CommitReplacement, SameLineage, InstanceTables.Lookup;
    CommitWorks(w, job, e);
    var plan, w' := ColdPlan(job), Committed(w, job, e);
    FinishDrive(w, Reload(plan, e));
    FinishDrive(w, ReloadSuccessor(plan, e, job.p));
    FinishDrive(w, RecoveryCommit(plan, e, job.p, job.s));
    FinishDrive(w', Confirm(plan));
    FinishDrive(w', ConfirmSuccessor(plan, CommittedPredecessor(job.p)));
    FinishDrive(w', Resaga(plan, CommittedSuccessor(job.s, Args(job, e))));
  }

  /** From the commit on nothing can fail: the lease is used, and Hazel holds what the row now shows. */
  lemma Closes(w: World, job: Job, e: HazelEvent)
    requires Mine(w, job, ReadbackVerified) && Ahead(w, job, e) && SameLineage(job.s, job.p) && job.s.predecessor == Some(job.p.id)
    requires job.s.leaseId in w.leases && w.leases[job.s.leaseId].state != LeaseActive
    requires job.p.id in w.t.bindings && w.t.bindings[job.p.id] == CommittedPredecessor(job.p)
    ensures var s' := CommittedSuccessor(job.s, Args(job, e));
            Finish(w, Drive(DriveLocal(ColdPlan(job), ReadbackVerified, s'))).1 == Returned(s')
  {
    hide Finish, AdvanceSaga, Finalize;
    var plan, s' := ColdPlan(job), CommittedSuccessor(job.s, Args(job, e));
    var w1 := SagaMoved(w, job, LocalCommitted);
    Moves(w, job, ReadbackVerified, LocalCommitted);
    FinishDrive(w, DriveLocal(plan, ReadbackVerified, s'));
    FinalizeWorks(w1.leases, job.s.leaseId);
    FinishDrive(w1, DriveFinalize(plan, LocalCommitted, s'));
    var w2 := w1.(leases := Finalize(w1.leases, job.s.leaseId).value);
    Moves(w2, job, LocalCommitted, LeaseFinalized);
    FinishDrive(w2, DriveFinish(plan, s'));
    var w3 := SagaMoved(w2, job, LeaseFinalized);
    FinishRecover(w3, Fidelity(s'));
    FinishRecover(w3, FidelityPredecessor(s', e));
    FinishDone(w3, Returned(s'));
  }

  lemma FinalizeWorks(ls: Leases, id: string)
    requires id in ls && ls[id].state != LeaseActive
    ensures Finalize(ls, id).Ok?
  {
  }

  /** What the invariant gives for the pair. */
  lemma PairFacts(w: World, job: Job)
    requires PairReady(w, job) && SagaReady(w, job)
    ensures Committable(w, job) && Mine(w, job, LeaseReserved) && job.s.predecessor == Some(job.p.id)
    ensures job.s.leaseId in w.leases && w.leases[job.s.leaseId].state != LeaseActive
    ensures var log := Run(w.hazel, job.p.lineage);
            && log != [] && Last(log).version == |log| && job.p.checkpointVersion <= |log| <= job.p.checkpointVersion + 1
  {
    hide Inv, LocalIdentity, InLog, SagaEffect, SagaRows, SagaJournal;
    RowFact(w, job.p.id);
    PredecessorFact(w, job.s.id);
    SagaFact(w, job.key);
    LastFact(w, job.p.lineage);
  }

  lemma RecoveryAdopts(w: World, job: Job, e: HazelEvent)
    requires PairReady(w, job) && SagaReady(w, job) && Ahead(w, job, e)
    ensures Finish(w, RecoverEntry(job)).1.Returned?
  {
    hide Finish, PairReady, SagaReady, IsReplacementOf, SameLineage, CommittedSuccessor, CommittedPredecessor, RecoveryArgs;
    PairFacts(w, job);
    ToStalled(w, job);
    SameLine(job);
    Adopts(w, job, e);
    var w1 := SagaMoved(SagaMoved(w, job, EffectApplied), job, ReadbackVerified);
    Commits(w1, job, e);
    CommitWorks(w1, job, e);
    Closes(Committed(w1, job, e), job, e);
  }

  lemma SameLine(job: Job)
    requires SameLineage(job.s, job.p)
    ensures job.s.lineage == job.p.lineage
  {
  }

  /** Hazel still at the predecessor's checkpoint: the case that converges. */
  lemma RecoveryWrites(w: World, job: Job)
    requires PairReady(w, job) && SagaReady(w, job) && LeaseReady(w, job)
    requires Run(w.hazel, job.p.lineage) != [] && |Run(w.hazel, job.p.lineage)| == job.p.checkpointVersion
    ensures Finish(w, RecoverEntry(job)).1.Returned?
  {
    hide Finish, PairReady, SagaReady, LeaseReady;
    var own := job.(carried := Last(Run(w.hazel, job.p.lineage)).payload);
    OtherPayload(w, job, own.carried);
    var _ := ReplacementConverges(w, own, 0, 0, []);
  }

  lemma OtherPayload(w: World, job: Job, carried: Payload)
    requires PairReady(w, job) && SagaReady(w, job) && LeaseReady(w, job)
    ensures var own := job.(carried := carried); PairReady(w, own) && SagaReady(w, own) && LeaseReady(w, own)
  {
    hide Inv, LocalIdentity;
  }

  /** With the successor created and its saga begun, recovery returns exactly when Hazel is not overtaken. */
  lemma RecoveryReturnsExactlyWhen(w: World, job: Job)
    requires PairReady(w, job) && SagaReady(w, job) && LeaseReady(w, job)
    ensures Finish(w, RecoverEntry(job)).1.Returned? <==> !Overtaken(w, job)
  {
    hide Finish, PairReady, SagaReady, LeaseReady, IsReplacementOf;
    PairFacts(w, job);
    if Overtaken(w, job) {
      OvertakenRecoveryGivesUp(w, job);
    } else if |Run(w.hazel, job.p.lineage)| == job.p.checkpointVersion {
      RecoveryWrites(w, job);
    } else {
      RecoveryAdopts(w, job, Last(Run(w.hazel, job.p.lineage)));
    }
  }
}
