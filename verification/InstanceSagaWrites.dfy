/** What one step of one call writes to the sagas, read off its program counter. */
module InstanceSagaWrites {
  import opened Prelude
  import opened InstanceContracts
  import opened InstanceTables
  import opened InstanceEffects
  import opened InstanceProtocol
  import opened InstanceInvariant

  datatype SagaWrite =
    | NoWrite
    | Insert(key: Key, row: Saga)
    | Climb(key: Key, from: SagaState, to: SagaState)

  function ClimbIf(st: SagaState, key: Key, from: SagaState, to: SagaState): SagaWrite {
    if st == from then Climb(key, from, to) else NoWrite
  }

  function DriveWrite(pc: DrivePc): SagaWrite {
    match pc
    case DriveEffect(plan, st, _) => ClimbIf(st, plan.key, LeaseReserved, EffectApplied)
    case DriveVerify(plan, st, _) => ClimbIf(st, plan.key, EffectApplied, ReadbackVerified)
    case DriveLocal(plan, st, _) => ClimbIf(st, plan.key, ReadbackVerified, LocalCommitted)
    case DriveFinish(plan, _) => Climb(plan.key, LocalCommitted, LeaseFinalized)
    case _ => NoWrite
  }

  function WriteOf(pc: Pc): SagaWrite {
    match pc
    case Checkpoint(VerifyReplay(plan, st, _)) => ClimbIf(st, plan.key, EffectApplied, ReadbackVerified)
    case Checkpoint(Begin(cmd, b)) => Insert(cmd.key, SagaRow(CheckpointPlanOf(cmd, b)))
    case Replace(BeginReplacement(cmd, p, _)) => Insert(cmd.key, ReplacementRow(cmd, p))
    case Replace(FinishDoneSaga(cmd, _)) => Climb(cmd.key, LocalCommitted, LeaseFinalized)
    case Drive(p) => DriveWrite(p)
    case _ => NoWrite
  }

  /** The row that a write puts in place, if it does. */
  function RowWritten(t: Tables, write: SagaWrite): Option<Saga> {
    match write
    case NoWrite => None
    case Insert(key, row) => if key !in t.sagas && row.binding in t.bindings then Some(row.(state := LeaseReserved)) else None
    case Climb(key, from, to) => if key in t.sagas && t.sagas[key].state == from then Some(t.sagas[key].(state := to)) else None
  }

  /** Sagas and latest keys after the write. */
  predicate WrittenTo(t: Tables, write: SagaWrite, t': Tables) {
    var row := RowWritten(t, write);
    if row.None? then t'.sagas == t.sagas && t'.recent == t.recent
    else
      && t'.sagas == t.sagas[write.key := row.value]
      && t'.recent == (if row.value.kind.ReplacementSaga? then t.recent[row.value.binding := write.key] else t.recent)
  }

  lemma AdvanceWrites(t: Tables, key: Key, from: SagaState, to: SagaState)
    requires from != to
    ensures WrittenTo(t, Climb(key, from, to), if AdvanceSaga(t, key, from, to).Ok? then AdvanceSaga(t, key, from, to).value.0 else t)
  {
  }

  lemma BeginWrites(t: Tables, key: Key, row: Saga)
    ensures WrittenTo(t, Insert(key, row), if BeginSaga(t, key, row).Ok? then BeginSaga(t, key, row).value.0 else t)
  {
  }

  lemma TransitionLeaves(t: Tables, a: TransitionArgs)
    requires Transition(t, a).Ok?
    ensures WrittenTo(t, NoWrite, Transition(t, a).value.0)
  {
    hide PlatformTaken, Allowed, SameTransition, Updated;
  }

  lemma TransitionWrites(w: World, a: TransitionArgs)
    ensures WrittenTo(w.t, NoWrite, TransitionStep(w, a).0.t)
  {
    hide Transition;
    if Transition(w.t, a).Ok? {
      TransitionLeaves(w.t, a);
    }
  }

  lemma CreateWrites(t: Tables, b: Binding)
    requires Create(t, b).Ok?
    ensures WrittenTo(t, NoWrite, Create(t, b).value.0)
  {
    hide Create;
    CreateShape(t, b);
  }

  lemma CommitWrites(t: Tables, a: CommitArgs)
    requires CommitReplacement(t, a).Ok?
    ensures WrittenTo(t, NoWrite, CommitReplacement(t, a).value.0)
  {
    hide SameLineage, SameCommit;
  }

  lemma DriveCommitWrites(w: World, plan: Plan, st: SagaState, e: HazelEvent)
    ensures WrittenTo(w.t, NoWrite, CommitStep(w, plan, st, e).0.t)
  {
    hide Transition, CommitReplacement;
    if plan.CheckpointPlan? && Transition(w.t, CheckpointArgs(plan, e)).Ok? {
      TransitionLeaves(w.t, CheckpointArgs(plan, e));
    } else if plan.ReplacePlan? && CommitReplacement(w.t, ReplaceArgs(plan, e)).Ok? {
      CommitWrites(w.t, ReplaceArgs(plan, e));
    }
  }

  lemma NothingWritten(t: Tables)
    ensures WrittenTo(t, NoWrite, t)
  {
  }

  lemma DriveWrites(w: World, pc: DrivePc)
    ensures WrittenTo(w.t, DriveWrite(pc), StepDrive(w, pc).0.t)
  {
    hide Transition, CommitReplacement, Finalize, AdvanceSaga, Accepts, IsReplacementOf, WrittenTo, CommitStep;
    NothingWritten(w.t);
    match pc
    case DriveEffect(plan, _, _) => AdvanceWrites(w.t, plan.key, LeaseReserved, EffectApplied);
    case DriveVerify(plan, _, _) => AdvanceWrites(w.t, plan.key, EffectApplied, ReadbackVerified);
    case DriveLocal(plan, _, _) => AdvanceWrites(w.t, plan.key, ReadbackVerified, LocalCommitted);
    case DriveFinish(plan, _) => AdvanceWrites(w.t, plan.key, LocalCommitted, LeaseFinalized);
    case DriveCommit(plan, st, e) => DriveCommitWrites(w, plan, st, e);
    case RecoveryCommit(plan, e, p, s) =>
      if CommitReplacement(w.t, RecoveryArgs(plan, e, p, s)).Ok? {
        CommitWrites(w.t, RecoveryArgs(plan, e, p, s));
      }
    case _ =>
  }

  lemma CheckpointWrites(w: World, pc: CheckpointPc)
    ensures WrittenTo(w.t, WriteOf(Checkpoint(pc)), StepCheckpoint(w, pc).0.t)
  {
    hide Reserve, LeaseValid, FingerprintOf, AdvanceSaga, BeginSaga, WrittenTo, SagaRow;
    NothingWritten(w.t);
    match pc
    case VerifyReplay(plan, _, _) => AdvanceWrites(w.t, plan.key, EffectApplied, ReadbackVerified);
    case Begin(cmd, b) => BeginWrites(w.t, cmd.key, SagaRow(CheckpointPlanOf(cmd, b)));
    case _ =>
  }

  lemma ReplaceWrites(w: World, pc: ReplacePc)
    ensures WrittenTo(w.t, WriteOf(Replace(pc)), StepReplace(w, pc).0.t)
  {
    hide Reserve, LeaseValid, Create, BootstrapOf, SuccessorBinding, ReplacePlanOf, Complete, AdvanceSaga, BeginSaga, WrittenTo, ReplacementRow;
    NothingWritten(w.t);
    match pc
    case BeginReplacement(cmd, p, _) => BeginWrites(w.t, cmd.key, ReplacementRow(cmd, p));
    case FinishDoneSaga(cmd, _) => AdvanceWrites(w.t, cmd.key, LocalCommitted, LeaseFinalized);
    case CreateSuccessor(cmd, p, _, _) =>
      if cmd.request.leaseId in w.leases {
        var b := SuccessorBinding(p, cmd.request, w.leases[cmd.request.leaseId].authorityRef, cmd.now);
        if Create(w.t, b).Ok? {
          CreateWrites(w.t, b);
        }
      }
    case _ =>
  }

  lemma PrepareWrites(w: World, pc: PreparePc)
    ensures WrittenTo(w.t, NoWrite, StepPrepare(w, pc).0.t)
  {
    hide Create, Reserve, Finalize, Accepts, LeaseValid, BootstrapOf, RootBinding, TransitionStep, PersistedArgs, WrittenTo;
    NothingWritten(w.t);
    match pc
    case CreateNew(b) => if Create(w.t, b).Ok? { CreateWrites(w.t, b); }
    case HazelCommit(b, e) => TransitionWrites(w, PersistedArgs(b, e));
    case _ =>
  }

  /** The saga tables after a step are those before it with the write that the program counter announces. */
  lemma StepWrites(w: World, pc: Pc)
    ensures WrittenTo(w.t, WriteOf(pc), Step(w, pc).0.t)
  {
    hide StepDrive, StepPrepare, StepCheckpoint, StepReplace, TransitionStep, Reserve, Finalize, LatestBinding, LocalIdentity, SingleActive,
         Faithful, IsReplacementOf, Resumed, WrittenTo, DriveWrite;
    NothingWritten(w.t);
    match pc
    case Prepare(p) => PrepareWrites(w, p);
    case Bridge(p) => BridgeWrites(w, p);
    case Reconcile(p) =>
    case Checkpoint(p) => CheckpointWrites(w, p);
    case Replace(p) => ReplaceWrites(w, p);
    case Recover(p) =>
    case Drive(p) => DriveWrites(w, p);
    case Done(_) =>
  }

  lemma BridgeWrites(w: World, pc: BridgePc)
    ensures WrittenTo(w.t, NoWrite, StepBridge(w, pc).0.t)
  {
    hide TransitionStep, AckArgs, AttachArgs, WrittenTo;
    NothingWritten(w.t);
    match pc
    case AttachCommit(a) => TransitionWrites(w, AttachArgs(a));
    case AckCommit(a, _) => TransitionWrites(w, AckArgs(a));
    case AckRead(_) =>
  }
}
