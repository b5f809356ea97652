/** Every step of replace_instance and of recovery leads from one stage of a replacement to another. */
module InstanceReplacingSteps {
  import opened Prelude
  import opened InstanceContracts
  import opened InstanceTables
  import opened InstanceEffects
  import opened InstanceProtocol
  import opened InstanceChain
  import opened InstanceInvariant
  import opened InstanceFinish
  import opened InstanceReplacing

  /** The plan a driver may be following; recovery may have read the rows before or after the commit. */
  ghost predicate IsPlan(job: Job, pr: Progress, plan: Plan)
    requires Fine(pr)
  {
    match plan
    case CheckpointPlan(_, _, _, _, _) => false
    case ReplacePlan(p, s, _, key, payload, leaseId) =>
      p == job.p && s == job.s && key == job.key && payload == JobPayload(job) && leaseId == job.s.leaseId
    case RecoveryPlan(p, s, key, leaseId) =>
      && ((p == job.p && s == job.s) || (p == PredecessorAt(job, pr) && s == SuccessorAt(job, pr)))
      && key == job.key && leaseId == job.s.leaseId
  }

  predicate Mine(job: Job, cmd: ReplaceCmd) {
    cmd.binding == job.p.id && cmd.key == job.key && cmd.request == job.s.request
  }

  ghost predicate KnowsEvent(job: Job, pr: Progress, plan: Plan, st: SagaState, e: HazelEvent)
    requires Fine(pr)
  {
    && IsPlan(job, pr, plan) && st == pr.state
    && pr.trace.Some? && e == JobEvent(job, pr.trace.value)
    && (plan.ReplacePlan? ==> !pr.committed)
  }

  ghost predicate KnowsDrive(job: Job, pr: Progress, pc: DrivePc)
    requires Fine(pr)
  {
    match pc
    case DriveRecover(plan, st) =>
      IsPlan(job, pr, plan) && st == pr.state && (plan.ReplacePlan? ==> !pr.committed)
      && (plan.RecoveryPlan? ==> plan.p == PredecessorAt(job, pr) && plan.s == SuccessorAt(job, pr))
    case DrivePersist(plan, st, payload) =>
      IsPlan(job, pr, plan) && st == pr.state && pr.trace.None? && payload == JobPayload(job)
    case DriveEffect(plan, st, e) => KnowsEvent(job, pr, plan, st, e)
    case DriveReadback(plan, st, e) => KnowsEvent(job, pr, plan, st, e) && Rank(st) >= 1
    case DriveVerify(plan, st, e) => KnowsEvent(job, pr, plan, st, e) && Rank(st) >= 1
    case DriveCommit(plan, st, e) => KnowsEvent(job, pr, plan, st, e) && Rank(st) >= 2 && plan.ReplacePlan?
    case Reload(plan, e) => KnowsEvent(job, pr, plan, pr.state, e) && Rank(pr.state) >= 2 && plan.RecoveryPlan?
    case ReloadSuccessor(plan, e, p) =>
      KnowsEvent(job, pr, plan, pr.state, e) && Rank(pr.state) >= 2 && plan.RecoveryPlan? && p == PredecessorAt(job, pr)
    case RecoveryCommit(plan, e, p, s) =>
      KnowsEvent(job, pr, plan, pr.state, e) && Rank(pr.state) >= 2 && plan.RecoveryPlan? && !pr.committed && p == job.p && s == job.s
    case Confirm(plan) => IsPlan(job, pr, plan) && plan.RecoveryPlan? && pr.committed
    case ConfirmSuccessor(plan, p) => IsPlan(job, pr, plan) && plan.RecoveryPlan? && pr.committed && p == PredecessorAt(job, pr)
    case Resaga(plan, s) => IsPlan(job, pr, plan) && plan.RecoveryPlan? && pr.committed && s == SuccessorAt(job, pr)
    case DriveLocal(plan, st, r) => IsPlan(job, pr, plan) && st == pr.state && pr.committed && r == SuccessorAt(job, pr)
    case DriveFinalize(plan, st, r) =>
      IsPlan(job, pr, plan) && st == pr.state && pr.committed && r == SuccessorAt(job, pr) && Rank(st) >= 3
    case DriveFinish(plan, r) =>
      IsPlan(job, pr, plan) && pr.state == LocalCommitted && pr.settled && r == SuccessorAt(job, pr)
  }

  ghost predicate KnowsReplace(w: World, job: Job, pr: Progress, pc: ReplacePc)
    requires Fine(pr) && JobReady(w, job)
  {
    Mine(job, pc.cmd) &&
    match pc
    case ReadPrevious(_) => true
    case ReadExisting(_, p) => p == PredecessorAt(job, pr)
    case ReadReplacementSaga(_, p) => p == job.p && !pr.committed
    case ValidateReplacement(_, _) => false
    case ReadPrior(_, p, seen) => p == job.p && !pr.committed && seen == Some(pr.state)
    case ReserveReplacement(_, _, _) => false
    case BeginReplacement(_, _, _) => false
    case CreateSuccessor(_, p, prior, st) =>
      p == job.p && !pr.committed && st == pr.state && LogAt(w, job, pr) != [] && prior == Last(LogAt(w, job, pr))
    case ReadDoneSaga(_, s) => s == SuccessorAt(job, pr) && pr.settled
    case FinishDoneSaga(_, s) => s == SuccessorAt(job, pr) && pr.settled && pr.state == LocalCommitted
  }

  ghost predicate KnowsReconcile(job: Job, pr: Progress, pc: ReconcilePc)
    requires Fine(pr)
  {
    pr.committed && pc.b == SuccessorAt(job, pr) && pc.resume.ResumeReplace? && Mine(job, pc.resume.cmd)
  }

  ghost predicate KnowsRecover(job: Job, pr: Progress, pc: RecoverPc)
    requires Fine(pr)
  {
    match pc
    case ReadLatest(l) => l == job.p.lineage
    case CountActive(b) => b == SuccessorAt(job, pr)
    case ReadStranded(_) => false
    case ReadPredecessor(b) => b == SuccessorAt(job, pr)
    case ReadRecentSaga(p, s) => p == PredecessorAt(job, pr) && s == SuccessorAt(job, pr)
    case Fidelity(b) => b == SuccessorAt(job, pr) && Ended(pr)
    case FidelityPredecessor(b, e) => b == SuccessorAt(job, pr) && Ended(pr) && e == JobEvent(job, pr.trace.value)
  }

  /** The local variables of an undisturbed call agree with the stage it runs in. */
  ghost predicate Knows(w: World, job: Job, pr: Progress, pc: Pc)
    requires Fine(pr) && JobReady(w, job)
  {
    match pc
    case Prepare(_) | Bridge(_) | Checkpoint(_) => false
    case Reconcile(p) => KnowsReconcile(job, pr, p)
    case Replace(p) => KnowsReplace(w, job, pr, p)
    case Recover(p) => KnowsRecover(job, pr, p)
    case Drive(p) => KnowsDrive(job, pr, p)
    case Done(_) => true
  }

  /** Recovery never gives up on a replacement. */
  predicate Recovering(pc: Pc) {
    match pc
    case Recover(_) => true
    case Drive(p) => DrivePlan(p).RecoveryPlan?
    case _ => false
  }

  function DrivePlan(pc: DrivePc): Plan {
    pc.plan
  }

  predicate Onward(pr: Progress, pr': Progress) {
    && (pr.trace.Some? ==> pr'.trace == pr.trace)
    && Rank(pr.state) <= Rank(pr'.state)
    && (pr.committed ==> pr'.committed) && (pr.settled ==> pr'.settled)
  }

  /** `r` is what a step from stage `pr` at `pc` led to: stage `pr'`. */
  ghost predicate Reaches(w: World, job: Job, pr: Progress, pc: Pc, r: (World, Pc), pr': Progress)
    requires JobReady(w, job)
  {
    && Fine(pr') && Onward(pr, pr')
    && r.0 == WorldAt(w, job, pr')
    && Knows(w, job, pr', r.1)
    && (Recovering(pc) ==> if r.1.Done? then Ended(pr') && r.1.outcome == Returned(SuccessorAt(job, pr')) else Recovering(r.1))
  }

  // ---------------------------------------------------------------- the driver

  lemma RecoveredReaches(w: World, job: Job, pr: Progress, plan: Plan, st: SagaState)
    requires JobReady(w, job) && Fine(pr) && KnowsDrive(job, pr, DriveRecover(plan, st))
    ensures Reaches(w, job, pr, Drive(DriveRecover(plan, st)), Recovered(WorldAt(w, job, pr), plan, st), pr)
  {
    hide RowsReady, SagaReady, LeaseReady, BindingsAt, JournalAt, LeasesAt, LogAt;
    IdsAt(w, job);
    LogIs(w, job, pr);
  }

  lemma PersistReaches(w: World, job: Job, pr: Progress, plan: Plan, st: SagaState, payload: Payload) returns (pr': Progress)
    requires JobReady(w, job) && Fine(pr) && KnowsDrive(job, pr, DrivePersist(plan, st, payload))
    ensures Reaches(w, job, pr, Drive(DrivePersist(plan, st, payload)), PersistStep(WorldAt(w, job, pr), plan, st, payload), pr')
  {
    hide JobReady, WorldAt, Persist;
    pr' := pr.(trace := Some(TraceOf(plan)));
    PersistAt(w, job, pr, TraceOf(plan));
    assert PlannedEvent(plan, payload) == JobEvent(job, TraceOf(plan));
  }

  lemma EffectReaches(w: World, job: Job, pr: Progress, plan: Plan, st: SagaState, e: HazelEvent) returns (pr': Progress)
    requires JobReady(w, job) && Fine(pr) && KnowsDrive(job, pr, DriveEffect(plan, st, e))
    ensures Reaches(w, job, pr, Drive(DriveEffect(plan, st, e)), EffectStep(WorldAt(w, job, pr), plan, st, e), pr')
  {
    hide JobReady, WorldAt, AdvanceSaga, JobEvent, KnowsReplace, KnowsReconcile;
    if st == LeaseReserved {
      pr' := pr.(state := EffectApplied);
      AdvanceAt(w, job, pr, EffectApplied);
    } else {
      pr' := pr;
    }
  }

  lemma ReadbackReaches(w: World, job: Job, pr: Progress, plan: Plan, st: SagaState, e: HazelEvent)
    requires JobReady(w, job) && Fine(pr) && KnowsDrive(job, pr, DriveReadback(plan, st, e))
    ensures Reaches(w, job, pr, Drive(DriveReadback(plan, st, e)), ReadbackStep(WorldAt(w, job, pr), plan, st, e), pr)
  {
    hide RowsReady, SagaReady, HazelReady, LeaseReady, BindingsAt, JournalAt, LeasesAt, LogAt;
    LogIs(w, job, pr);
  }

  lemma VerifyReaches(w: World, job: Job, pr: Progress, plan: Plan, st: SagaState, e: HazelEvent) returns (pr': Progress)
    requires JobReady(w, job) && Fine(pr) && KnowsDrive(job, pr, DriveVerify(plan, st, e))
    ensures Reaches(w, job, pr, Drive(DriveVerify(plan, st, e)), VerifyStep(WorldAt(w, job, pr), plan, st, e), pr')
  {
    hide JobReady, WorldAt, AdvanceSaga, JobEvent, KnowsReplace, KnowsReconcile;
    if st == EffectApplied {
      pr' := pr.(state := ReadbackVerified);
      AdvanceAt(w, job, pr, ReadbackVerified);
    } else {
      pr' := pr;
    }
  }

  lemma CommitReaches(w: World, job: Job, pr: Progress, plan: Plan, st: SagaState, e: HazelEvent) returns (pr': Progress)
    requires JobReady(w, job) && Fine(pr) && KnowsDrive(job, pr, DriveCommit(plan, st, e))
    ensures Reaches(w, job, pr, Drive(DriveCommit(plan, st, e)), ReplaceCommitStep(WorldAt(w, job, pr), plan, st, e), pr')
  {
    hide JobReady, CommitReplacement, BindingsAt, JournalAt, LeasesAt, LogAt;
    if plan.expected == job.p.version {
      pr' := pr.(committed := true);
      CommitAt(w, job, pr);
    } else {
      pr' := pr;
      StaleCommit(w, job, pr, ReplaceArgs(plan, e));
    }
  }

  /** A commit that quotes another version of the predecessor is refused. */
  lemma StaleCommit(w: World, job: Job, pr: Progress, a: CommitArgs)
    requires JobReady(w, job) && Fine(pr) && !pr.committed
    requires a.predecessor == job.p.id && a.successor == job.s.id && a.key == job.key && a.predecessorExpected != job.p.version
    ensures CommitReplacement(WorldAt(w, job, pr).t, a).Err?
  {
    hide HazelReady, LeaseReady, LeasesAt, LogAt;
  }

  lemma ReloadReaches(w: World, job: Job, pr: Progress, plan: Plan, e: HazelEvent)
    requires JobReady(w, job) && Fine(pr) && KnowsDrive(job, pr, Reload(plan, e))
    ensures Reaches(w, job, pr, Drive(Reload(plan, e)), ReloadStep(WorldAt(w, job, pr), plan, e), pr)
  {
    hide JobReady, BindingsAt, JournalAt, LeasesAt, LogAt, JobEvent, KnowsReplace, KnowsRecover, KnowsReconcile;
    RowsAt(w, job, pr);
    IdsAt(w, job);
  }

  lemma ReloadSuccessorReaches(w: World, job: Job, pr: Progress, plan: Plan, e: HazelEvent, p: Binding)
    requires JobReady(w, job) && Fine(pr) && KnowsDrive(job, pr, ReloadSuccessor(plan, e, p))
    ensures Reaches(w, job, pr, Drive(ReloadSuccessor(plan, e, p)), ReloadSuccessorStep(WorldAt(w, job, pr), plan, e, p), pr)
  {
    hide JobReady, BindingsAt, JournalAt, LeasesAt, LogAt, JobEvent, KnowsReplace, KnowsRecover, KnowsReconcile;
    RowsAt(w, job, pr);
    IdsAt(w, job);
  }

  lemma ConfirmReaches(w: World, job: Job, pr: Progress, plan: Plan)
    requires JobReady(w, job) && Fine(pr) && KnowsDrive(job, pr, Confirm(plan))
    ensures Reaches(w, job, pr, Drive(Confirm(plan)), ConfirmStep(WorldAt(w, job, pr), plan), pr)
  {
    hide JobReady, BindingsAt, JournalAt, LeasesAt, LogAt, JobEvent, KnowsReplace, KnowsRecover, KnowsReconcile;
    RowsAt(w, job, pr);
    IdsAt(w, job);
  }

  lemma ConfirmSuccessorReaches(w: World, job: Job, pr: Progress, plan: Plan, p: Binding)
    requires JobReady(w, job) && Fine(pr) && KnowsDrive(job, pr, ConfirmSuccessor(plan, p))
    ensures Reaches(w, job, pr, Drive(ConfirmSuccessor(plan, p)), ConfirmSuccessorStep(WorldAt(w, job, pr), plan, p), pr)
  {
    hide JobReady, BindingsAt, JournalAt, LeasesAt, LogAt, JobEvent, KnowsReplace, KnowsRecover, KnowsReconcile;
    RowsAt(w, job, pr);
    IdsAt(w, job);
  }

  lemma ResagaReaches(w: World, job: Job, pr: Progress, plan: Plan, s: Binding)
    requires JobReady(w, job) && Fine(pr) && KnowsDrive(job, pr, Resaga(plan, s))
    ensures Reaches(w, job, pr, Drive(Resaga(plan, s)), ResagaStep(WorldAt(w, job, pr), plan, s), pr)
  {
    hide JobReady, BindingsAt, JournalAt, LeasesAt, LogAt, JobEvent, KnowsReplace, KnowsRecover, KnowsReconcile;
    RowsAt(w, job, pr);
    IdsAt(w, job);
  }

  lemma IdsAt(w: World, job: Job)
    requires JobReady(w, job)
    ensures job.p.status == Checkpointed && job.s.status == Prepared && job.key in w.t.sagas
    ensures job.s.predecessor == Some(job.p.id) && job.s.version == 1
    ensures w.t.sagas[job.key].kind == ReplacementSaga && w.t.sagas[job.key].binding == job.p.id
    ensures w.t.sagas[job.key].leaseId == job.s.leaseId
  {
    hide HazelReady, LeaseReady;
  }

  lemma RecoveryCommitReaches(w: World, job: Job, pr: Progress, plan: Plan, e: HazelEvent, p: Binding, s: Binding) returns (pr': Progress)
    requires JobReady(w, job) && Fine(pr) && KnowsDrive(job, pr, RecoveryCommit(plan, e, p, s))
    ensures Reaches(w, job, pr, Drive(RecoveryCommit(plan, e, p, s)), RecoveryCommitStep(WorldAt(w, job, pr), plan, e, p, s), pr')
  {
    hide JobReady, WorldAt, CommitReplacement;
    pr' := pr.(committed := true);
    IdsAt(w, job);
    CommitAt(w, job, pr);
  }

  lemma LocalReaches(w: World, job: Job, pr: Progress, plan: Plan, st: SagaState, r: Binding) returns (pr': Progress)
    requires JobReady(w, job) && Fine(pr) && KnowsDrive(job, pr, DriveLocal(plan, st, r))
    ensures Reaches(w, job, pr, Drive(DriveLocal(plan, st, r)), LocalStep(WorldAt(w, job, pr), plan, st, r), pr')
  {
    hide JobReady, WorldAt, AdvanceSaga, JobEvent, KnowsReplace, KnowsReconcile;
    if st == ReadbackVerified {
      pr' := pr.(state := LocalCommitted);
      AdvanceAt(w, job, pr, LocalCommitted);
    } else {
      pr' := pr;
    }
  }

  lemma FinalizeReaches(w: World, job: Job, pr: Progress, plan: Plan, st: SagaState, r: Binding) returns (pr': Progress)
    requires JobReady(w, job) && Fine(pr) && KnowsDrive(job, pr, DriveFinalize(plan, st, r))
    ensures Reaches(w, job, pr, Drive(DriveFinalize(plan, st, r)), FinalizeStep(WorldAt(w, job, pr), plan, st, r), pr')
  {
    hide JobReady, WorldAt, Finalize, JobEvent, KnowsReplace, KnowsReconcile;
    if st == LocalCommitted {
      pr' := pr.(settled := true);
      FinalizeAt(w, job, pr);
    } else {
      pr' := pr;
    }
  }

  lemma FinishReaches(w: World, job: Job, pr: Progress, plan: Plan, r: Binding) returns (pr': Progress)
    requires JobReady(w, job) && Fine(pr) && KnowsDrive(job, pr, DriveFinish(plan, r))
    ensures Reaches(w, job, pr, Drive(DriveFinish(plan, r)), FinishStep(WorldAt(w, job, pr), plan, r), pr')
  {
    hide JobReady, WorldAt, AdvanceSaga, JobEvent, KnowsReplace, KnowsReconcile;
    pr' := pr.(state := LeaseFinalized);
    AdvanceAt(w, job, pr, LeaseFinalized);
  }

  lemma DriveReaches(w: World, job: Job, pr: Progress, pc: DrivePc) returns (pr': Progress)
    requires JobReady(w, job) && Fine(pr) && KnowsDrive(job, pr, pc)
    ensures Reaches(w, job, pr, Drive(pc), StepDrive(WorldAt(w, job, pr), pc), pr')
  {
    hide JobReady, WorldAt, Reaches, KnowsEvent, IsPlan, JobEvent;
    hide Recovered, PersistStep, EffectStep, ReadbackStep, VerifyStep, ReplaceCommitStep, ReloadStep, ReloadSuccessorStep,
         RecoveryCommitStep, ConfirmStep, ConfirmSuccessorStep, ResagaStep, LocalStep, FinalizeStep, FinishStep;
    pr' := pr;
    match pc
    case DriveRecover(plan, st) => RecoveredReaches(w, job, pr, plan, st);
    case DrivePersist(plan, st, payload) => pr' := PersistReaches(w, job, pr, plan, st, payload);
    case DriveEffect(plan, st, e) => pr' := EffectReaches(w, job, pr, plan, st, e);
    case DriveReadback(plan, st, e) => ReadbackReaches(w, job, pr, plan, st, e);
    case DriveVerify(plan, st, e) => pr' := VerifyReaches(w, job, pr, plan, st, e);
    case DriveCommit(plan, st, e) => pr' := CommitReaches(w, job, pr, plan, st, e);
    case RecoveryCommit(plan, e, p, s) => pr' := RecoveryCommitReaches(w, job, pr, plan, e, p, s);
    case DriveLocal(plan, st, r) => pr' := LocalReaches(w, job, pr, plan, st, r);
    case DriveFinalize(plan, st, r) => pr' := FinalizeReaches(w, job, pr, plan, st, r);
    case DriveFinish(plan, r) => pr' := FinishReaches(w, job, pr, plan, r);
    case Reload(plan, e) => ReloadReaches(w, job, pr, plan, e);
    case ReloadSuccessor(plan, e, p) => ReloadSuccessorReaches(w, job, pr, plan, e, p);
    case Confirm(plan) => ConfirmReaches(w, job, pr, plan);
    case ConfirmSuccessor(plan, p) => ConfirmSuccessorReaches(w, job, pr, plan, p);
    case Resaga(plan, s) => ResagaReaches(w, job, pr, plan, s);
  }

  // ---------------------------------------------------------------- replace_instance called again

  lemma SamePc(w: World, job: Job, pr: Progress, pc: Pc, pc': Pc)
    requires JobReady(w, job) && Fine(pr) && Knows(w, job, pr, pc') && (Recovering(pc) ==> Recovering(pc'))
    ensures Reaches(w, job, pr, pc, (WorldAt(w, job, pr), pc'), pr)
  {
    hide JobReady, WorldAt, Knows;
  }

  lemma ReadPreviousReaches(w: World, job: Job, pr: Progress, cmd: ReplaceCmd)
    requires JobReady(w, job) && Fine(pr) && Mine(job, cmd)
    ensures Reaches(w, job, pr, Replace(ReadPrevious(cmd)), ReadPreviousStep(WorldAt(w, job, pr), cmd), pr)
  {
    hide JobReady, BindingsAt, JournalAt, LeasesAt, LogAt, Reaches, Complete;
    IdsAt(w, job);
    RowsAt(w, job, pr);
    SamePc(w, job, pr, Replace(ReadPrevious(cmd)), ReadPreviousStep(WorldAt(w, job, pr), cmd).1);
  }

  lemma ReadExistingReaches(w: World, job: Job, pr: Progress, cmd: ReplaceCmd)
    requires JobOk(w, job) && JobReady(w, job) && Fine(pr) && Mine(job, cmd)
    ensures Reaches(w, job, pr, Replace(ReadExisting(cmd, PredecessorAt(job, pr))),
                    ReadExistingStep(WorldAt(w, job, pr), cmd, PredecessorAt(job, pr)), pr)
  {
    hide JobReady, JobOk, BindingsAt, JournalAt, LeasesAt, LogAt, Reaches, BootstrapOf;
    FoundAt(w, job, pr);
    IdsAt(w, job);
    var p := PredecessorAt(job, pr);
    SamePc(w, job, pr, Replace(ReadExisting(cmd, p)), ReadExistingStep(WorldAt(w, job, pr), cmd, p).1);
  }

  lemma ReadReplacementSagaReaches(w: World, job: Job, pr: Progress, cmd: ReplaceCmd)
    requires JobReady(w, job) && Fine(pr) && Mine(job, cmd) && !pr.committed
    ensures Reaches(w, job, pr, Replace(ReadReplacementSaga(cmd, job.p)), ReadReplacementSagaStep(WorldAt(w, job, pr), cmd, job.p), pr)
  {
    hide JobReady, BindingsAt, JournalAt, LeasesAt, LogAt, Reaches, ReplacementFingerprintOf;
    IdsAt(w, job);
    SamePc(w, job, pr, Replace(ReadReplacementSaga(cmd, job.p)), ReadReplacementSagaStep(WorldAt(w, job, pr), cmd, job.p).1);
  }

  lemma ReadPriorReaches(w: World, job: Job, pr: Progress, cmd: ReplaceCmd)
    requires JobReady(w, job) && Fine(pr) && Mine(job, cmd) && !pr.committed
    ensures Reaches(w, job, pr, Replace(ReadPrior(cmd, job.p, Some(pr.state))),
                    ReadPriorStep(WorldAt(w, job, pr), cmd, job.p, Some(pr.state)), pr)
  {
    hide JobReady, BindingsAt, JournalAt, LeasesAt, LogAt, Reaches;
    IdsAt(w, job);
    LogIs(w, job, pr);
    SamePc(w, job, pr, Replace(ReadPrior(cmd, job.p, Some(pr.state))), ReadPriorStep(WorldAt(w, job, pr), cmd, job.p, Some(pr.state)).1);
  }

  /** The payload carried over is the predecessor's checkpoint, whether or not it has been wrapped already. */
  lemma CarriedIs(w: World, job: Job, pr: Progress)
    requires JobReady(w, job) && Fine(pr)
    ensures LogAt(w, job, pr) != [] && CarriedPayload(job.p, job.s, Last(LogAt(w, job, pr))) == job.carried
  {
    hide RowsReady, SagaReady, LeaseReady;
  }

  lemma CreateExisting(w: World, job: Job, pr: Progress, b: Binding)
    requires JobOk(w, job) && Fine(pr) && !pr.committed
    requires b.status == Prepared && b.version == 1 && b.request == job.s.request && b.key == job.s.request.key
    ensures JobReady(w, job) && Create(WorldAt(w, job, pr).t, b) == Ok((WorldAt(w, job, pr).t, job.s))
  {
    hide JobReady, JobOk, BindingsAt, JournalAt, LeasesAt, LogAt, HasKey, ActiveExists, GenerationTaken;
    JobIsReady(w, job);
    IdsAt(w, job);
    FoundAt(w, job, pr);
  }

  lemma CreateSuccessorReaches(w: World, job: Job, pr: Progress, cmd: ReplaceCmd)
    requires JobOk(w, job) && JobReady(w, job) && Fine(pr) && Mine(job, cmd) && !pr.committed && LogAt(w, job, pr) != []
    ensures Reaches(w, job, pr, Replace(CreateSuccessor(cmd, job.p, Last(LogAt(w, job, pr)), pr.state)),
                    CreateSuccessorStep(WorldAt(w, job, pr), cmd, job.p, Last(LogAt(w, job, pr)), pr.state), pr)
  {
    hide JobOk, RowsReady, SagaReady, HazelReady, LeaseReady, WorldAt, Create, LogAt, CarriedPayload, Reaches;
    IdsAt(w, job);
    CarriedIs(w, job, pr);
    var now := WorldAt(w, job, pr);
    var prior := Last(LogAt(w, job, pr));
    if cmd.request.leaseId in now.leases {
      var b := SuccessorBinding(job.p, cmd.request, now.leases[cmd.request.leaseId].authorityRef, cmd.now);
      CreateExisting(w, job, pr, b);
      assert now.(t := now.t) == now;
      SamePc(w, job, pr, Replace(CreateSuccessor(cmd, job.p, prior, pr.state)), Drive(DriveRecover(ReplacePlanOf(cmd, job.p, job.s, prior), pr.state)));
    } else {
      SamePc(w, job, pr, Replace(CreateSuccessor(cmd, job.p, prior, pr.state)), Fail(LeaseUnknown));
    }
  }

  lemma FinishDoneReaches(w: World, job: Job, pr: Progress, cmd: ReplaceCmd) returns (pr': Progress)
    requires JobReady(w, job) && Fine(pr) && Mine(job, cmd) && pr.settled && pr.state == LocalCommitted
    ensures Reaches(w, job, pr, Replace(FinishDoneSaga(cmd, SuccessorAt(job, pr))),
                    FinishDoneSagaStep(WorldAt(w, job, pr), cmd, SuccessorAt(job, pr)), pr')
  {
    hide JobReady, WorldAt, AdvanceSaga, JobEvent;
    pr' := pr.(state := LeaseFinalized);
    AdvanceAt(w, job, pr, LeaseFinalized);
  }

  lemma ReadDoneReaches(w: World, job: Job, pr: Progress, cmd: ReplaceCmd)
    requires JobReady(w, job) && Fine(pr) && Mine(job, cmd) && pr.settled
    ensures var s := SuccessorAt(job, pr); var now := WorldAt(w, job, pr);
            Reaches(w, job, pr, Replace(ReadDoneSaga(cmd, s)), StepReplace(now, ReadDoneSaga(cmd, s)), pr)
  {
    hide JobReady, BindingsAt, JournalAt, LeasesAt, LogAt, Reaches, ReadPreviousStep, ReadExistingStep, ReadReplacementSagaStep,
         ReadPriorStep, ReserveReplacementStep, BeginReplacementStep, CreateSuccessorStep, FinishDoneSagaStep, LeaseValid;
    IdsAt(w, job);
    var s := SuccessorAt(job, pr);
    SamePc(w, job, pr, Replace(ReadDoneSaga(cmd, s)), StepReplace(WorldAt(w, job, pr), ReadDoneSaga(cmd, s)).1);
  }

  lemma ReplaceReaches(w: World, job: Job, pr: Progress, pc: ReplacePc) returns (pr': Progress)
    requires JobOk(w, job) && JobReady(w, job) && Fine(pr) && KnowsReplace(w, job, pr, pc)
    ensures Reaches(w, job, pr, Replace(pc), StepReplace(WorldAt(w, job, pr), pc), pr')
  {
    hide JobOk, JobReady, WorldAt, LogAt, Reaches, Mine, LeaseValid, ReadPreviousStep, ReadExistingStep, ReadReplacementSagaStep,
         ReadPriorStep, ReserveReplacementStep, BeginReplacementStep, CreateSuccessorStep, FinishDoneSagaStep;
    pr' := pr;
    match pc
    case ReadPrevious(cmd) => ReadPreviousReaches(w, job, pr, cmd);
    case ReadExisting(cmd, p) => ReadExistingReaches(w, job, pr, cmd);
    case ReadReplacementSaga(cmd, p) => ReadReplacementSagaReaches(w, job, pr, cmd);
    case ReadPrior(cmd, p, seen) => ReadPriorReaches(w, job, pr, cmd);
    case CreateSuccessor(cmd, p, prior, st) => CreateSuccessorReaches(w, job, pr, cmd);
    case ReadDoneSaga(cmd, s) => ReadDoneReaches(w, job, pr, cmd);
    case FinishDoneSaga(cmd, s) => pr' := FinishDoneReaches(w, job, pr, cmd);
  }

  lemma KeyAt(w: World, job: Job, pr: Progress)
    requires JobReady(w, job) && Fine(pr)
    ensures var s := SuccessorAt(job, pr); s.leaseId == job.s.leaseId && s.key == job.s.key && s.id == job.s.id
  {
    hide JobReady;
  }

  lemma ReconcileReaches(w: World, job: Job, pr: Progress, pc: ReconcilePc) returns (pr': Progress)
    requires JobReady(w, job) && Fine(pr) && KnowsReconcile(job, pr, pc)
    ensures Reaches(w, job, pr, Reconcile(pc), StepReconcile(WorldAt(w, job, pr), pc), pr')
  {
    hide JobReady, WorldAt, Reserve, Finalize, JobEvent, SuccessorAt, Settled;
    pr' := pr;
    IdsAt(w, job);
    KeyAt(w, job, pr);
    match pc
    case LeaseCheck(b, resume) =>
      if job.s.leaseId in WorldAt(w, job, pr).leases && WorldAt(w, job, pr).leases[job.s.leaseId].state == LeaseReleased {
        pr' := pr.(settled := true);
        ReleasedAt(w, job, pr);
      }
    case LeaseReserve(b, resume) => ReserveAt(w, job, pr); assert WorldAt(w, job, pr).(leases := WorldAt(w, job, pr).leases) == WorldAt(w, job, pr);
    case LeaseFinalize(b, resume) =>
      pr' := pr.(settled := true);
      FinalizeAt(w, job, pr);
      SettledSuccessor(job, pr);
  }

  lemma SettledSuccessor(job: Job, pr: Progress)
    requires Fine(pr) && pr.committed
    ensures SuccessorAt(job, pr.(settled := true)) == SuccessorAt(job, pr)
  {
  }

  /** A lease found RELEASED is as good as finalized. */
  lemma ReleasedAt(w: World, job: Job, pr: Progress)
    requires JobReady(w, job) && Fine(pr) && pr.committed
    requires job.s.leaseId in WorldAt(w, job, pr).leases && WorldAt(w, job, pr).leases[job.s.leaseId].state == LeaseReleased
    ensures WorldAt(w, job, pr.(settled := true)) == WorldAt(w, job, pr)
    ensures SuccessorAt(job, pr.(settled := true)) == SuccessorAt(job, pr)
  {
    hide RowsReady, SagaReady, HazelReady, LeaseReady;
  }

  // ---------------------------------------------------------------- recovery

  lemma ReadLatestReaches(w: World, job: Job, pr: Progress)
    requires JobOk(w, job) && JobReady(w, job) && Fine(pr)
    ensures Reaches(w, job, pr, Recover(ReadLatest(job.p.lineage)), ReadLatestStep(WorldAt(w, job, pr), job.p.lineage), pr)
  {
    hide JobOk, JobReady, BindingsAt, JournalAt, LeasesAt, LogAt, Reaches, LatestBinding, LocalIdentity, SuccessorAt;
    LatestAt(w, job, pr);
    IdentityAt(w, job, pr);
    SamePc(w, job, pr, Recover(ReadLatest(job.p.lineage)), Recover(CountActive(SuccessorAt(job, pr))));
  }

  lemma CountActiveReaches(w: World, job: Job, pr: Progress)
    requires JobOk(w, job) && JobReady(w, job) && Fine(pr)
    ensures var s := SuccessorAt(job, pr);
            Reaches(w, job, pr, Recover(CountActive(s)), CountActiveStep(WorldAt(w, job, pr), s), pr)
  {
    hide JobOk, JobReady, BindingsAt, JournalAt, LeasesAt, LogAt, Reaches, SingleActive, Rows, UniqueKeys, UniqueGenerations, Linked;
    var s := SuccessorAt(job, pr);
    IdsAt(w, job);
    StageRows(w, job, pr);
    OneActive(BindingsAt(w, job, pr), s.lineage);
    SamePc(w, job, pr, Recover(CountActive(s)), Recover(ReadPredecessor(s)));
  }

  lemma ReadPredecessorReaches(w: World, job: Job, pr: Progress)
    requires JobReady(w, job) && Fine(pr)
    ensures var s := SuccessorAt(job, pr);
            Reaches(w, job, pr, Recover(ReadPredecessor(s)), ReadPredecessorStep(WorldAt(w, job, pr), s), pr)
  {
    hide JobReady, BindingsAt, JournalAt, LeasesAt, LogAt, Reaches;
    var s := SuccessorAt(job, pr);
    IdsAt(w, job);
    RowsAt(w, job, pr);
    SamePc(w, job, pr, Recover(ReadPredecessor(s)), Recover(ReadRecentSaga(PredecessorAt(job, pr), s)));
  }

  lemma ReadRecentReaches(w: World, job: Job, pr: Progress)
    requires JobOk(w, job) && JobReady(w, job) && Fine(pr)
    ensures var (p, s) := (PredecessorAt(job, pr), SuccessorAt(job, pr));
            Reaches(w, job, pr, Recover(ReadRecentSaga(p, s)), ReadRecentSagaStep(WorldAt(w, job, pr), p, s), pr)
  {
    hide JobOk, RowsReady, HazelReady, LeaseReady, JobFacts, BindingsAt, JournalAt, LeasesAt, LogAt, Reaches;
    var (p, s) := (PredecessorAt(job, pr), SuccessorAt(job, pr));
    KeyAt(w, job, pr);
    IdentityAt(w, job, pr);
    SamePc(w, job, pr, Recover(ReadRecentSaga(p, s)), Drive(DriveRecover(RecoveryPlan(p, s, job.key, job.s.leaseId), pr.state)));
  }

  lemma FidelityReaches(w: World, job: Job, pr: Progress)
    requires JobReady(w, job) && Ended(pr)
    ensures var s := SuccessorAt(job, pr);
            Reaches(w, job, pr, Recover(Fidelity(s)), FidelityStep(WorldAt(w, job, pr), s), pr)
  {
    hide SagaReady, HazelReady, LeaseReady, BindingsAt, JournalAt, LeasesAt, LogAt, Reaches;
    var s := SuccessorAt(job, pr);
    LogIs(w, job, pr);
    SamePc(w, job, pr, Recover(Fidelity(s)), Recover(FidelityPredecessor(s, JobEvent(job, pr.trace.value))));
  }

  lemma FidelityPredecessorReaches(w: World, job: Job, pr: Progress)
    requires JobReady(w, job) && Ended(pr)
    ensures var s := SuccessorAt(job, pr); var e := JobEvent(job, pr.trace.value);
            Reaches(w, job, pr, Recover(FidelityPredecessor(s, e)), FidelityPredecessorStep(WorldAt(w, job, pr), s, e), pr)
  {
    hide SagaReady, HazelReady, LeaseReady, BindingsAt, JournalAt, LeasesAt, LogAt;
    IdsAt(w, job);
    RowsAt(w, job, pr);
  }

  lemma RecoverReaches(w: World, job: Job, pr: Progress, pc: RecoverPc)
    requires JobOk(w, job) && JobReady(w, job) && Fine(pr) && KnowsRecover(job, pr, pc)
    ensures Reaches(w, job, pr, Recover(pc), StepRecover(WorldAt(w, job, pr), pc), pr)
  {
    hide JobOk, JobReady, WorldAt, Reaches, ReadLatestStep, CountActiveStep, ReadStrandedStep, ReadPredecessorStep, ReadRecentSagaStep,
         FidelityStep, FidelityPredecessorStep, SuccessorAt, PredecessorAt, JobEvent;
    match pc
    case ReadLatest(l) => ReadLatestReaches(w, job, pr);
    case CountActive(b) => CountActiveReaches(w, job, pr);
    case ReadPredecessor(b) => ReadPredecessorReaches(w, job, pr);
    case ReadRecentSaga(p, s) => ReadRecentReaches(w, job, pr);
    case Fidelity(b) => FidelityReaches(w, job, pr);
    case FidelityPredecessor(b, e) => FidelityPredecessorReaches(w, job, pr);
  }

  lemma StepReaches(w: World, job: Job, pr: Progress, pc: Pc) returns (pr': Progress)
    requires JobOk(w, job) && JobReady(w, job) && Fine(pr) && Knows(w, job, pr, pc) && !pc.Done?
    ensures Reaches(w, job, pr, pc, Step(WorldAt(w, job, pr), pc), pr')
  {
    hide JobOk, JobReady, WorldAt, Reaches, KnowsReplace, KnowsReconcile, KnowsRecover, KnowsDrive;
    hide StepPrepare, StepBridge, StepReconcile, StepCheckpoint, StepReplace, StepRecover, StepDrive;
    pr' := pr;
    match pc
    case Reconcile(p) => pr' := ReconcileReaches(w, job, pr, p);
    case Replace(p) => pr' := ReplaceReaches(w, job, pr, p);
    case Recover(p) => RecoverReaches(w, job, pr, p);
    case Drive(p) => pr' := DriveReaches(w, job, pr, p);
  }
}
