/** A call on its own: run to its end, or cut after any number of steps. */
module InstanceFinish {
  import opened Prelude
  import opened InstanceContracts
  import opened InstanceTables
  import opened InstanceEffects
  import opened InstanceProtocol

  /** An upper bound on the steps a call still has to make. */
  function Remaining(pc: Pc): nat {
    match pc
    case Done(_) => 0
    case Prepare(p) =>
      (match p
       case HazelCommit(_, _) => 1
       case HazelReadback(_, _) => 2
       case HazelWrite(_) => 3
       case HazelCheck(_) => 4
       case FinalizeNew(_) => 5
       case CreateNew(_) => 6
       case ReserveNew(_) => 7
       case Generation(_, _) => 8
       case Validate(_, _) => 9
       case Lookup(_, _) => 10)
    case Reconcile(p) =>
      (match p
       case LeaseFinalize(_, _) => 5
       case LeaseReserve(_, _) => 6
       case LeaseCheck(_, _) => 7)
    case Bridge(p) =>
      (match p
       case AttachCommit(_) => 1
       case AckCommit(_, _) => 1
       case AckRead(_) => 2)
    case Checkpoint(p) =>
      (match p
       case Begin(_, _) => 18
       case VerifyReplay(_, _, _) => 18
       case ReserveLease(_, _) => 19
       case ReadReplaySaga(_, _) => 19
       case ValidateLease(_, _) => 20
       case ReadSaga(_, _) => 21
       case ReadReplay(_, _) => 22
       case ReadBinding(_) => 23)
    case Replace(p) =>
      (match p
       case FinishDoneSaga(_, _) => 1
       case ReadDoneSaga(_, _) => 2
       case CreateSuccessor(_, _, _, _) => 18
       case BeginReplacement(_, _, _) => 19
       case ReserveReplacement(_, _, _) => 20
       case ReadPrior(_, _, _) => 21
       case ValidateReplacement(_, _) => 22
       case ReadReplacementSaga(_, _) => 23
       case ReadExisting(_, _) => 24
       case ReadPrevious(_) => 25)
    case Recover(p) =>
      (match p
       case FidelityPredecessor(_, _) => 1
       case Fidelity(_) => 2
       case ReadStranded(_) => 3
       case ReadRecentSaga(_, _) => 18
       case ReadPredecessor(_) => 19
       case CountActive(_) => 20
       case ReadLatest(_) => 21)
    case Drive(p) => DriveRemaining(p)
  }

  function DriveRemaining(pc: DrivePc): nat {
    match pc
    case DriveFinish(_, _) => 3
    case DriveFinalize(_, _, _) => 4
    case DriveLocal(_, _, _) => 5
    case Resaga(_, _) => 6
    case ConfirmSuccessor(_, _) => 7
    case Confirm(_) => 8
    case RecoveryCommit(_, _, _, _) => 9
    case ReloadSuccessor(_, _, _) => 10
    case Reload(_, _) => 11
    case DriveCommit(_, _, _) => 12
    case DriveVerify(_, _, _) => 13
    case DriveReadback(_, _, _) => 14
    case DriveEffect(_, _, _) => 15
    case DrivePersist(_, _, _) => 16
    case DriveRecover(_, _) => 17
  }

  lemma DriveDecreases(w: World, pc: DrivePc)
    ensures Remaining(StepDrive(w, pc).1) < DriveRemaining(pc)
  {
    hide Transition, CommitReplacement, Finalize, AdvanceSaga, Accepts, IsReplacementOf, CheckpointArgs, ReplaceArgs, RecoveryArgs,
         PlannedEvent, RecoveryPayload, CommittedPair;
  }

  lemma PrepareDecreases(w: World, pc: PreparePc)
    ensures Remaining(StepPrepare(w, pc).1) < Remaining(Prepare(pc))
  {
    hide Transition, Create, Finalize, Reserve, Accepts, PrepareEvent, PersistedArgs, RootBinding, BootstrapOf, LeaseValid, Complete;
  }

  lemma CheckpointDecreases(w: World, pc: CheckpointPc)
    ensures Remaining(StepCheckpoint(w, pc).1) < Remaining(Checkpoint(pc))
  {
    hide BeginSaga, AdvanceSaga, Reserve, LeaseValid, CheckpointPlanOf, FingerprintOf, SagaRow, SameCheckpoint;
  }

  lemma ReplaceDecreases(w: World, pc: ReplacePc)
    ensures Remaining(StepReplace(w, pc).1) < Remaining(Replace(pc))
  {
    hide BeginSaga, AdvanceSaga, Reserve, LeaseValid, Create, ReplacementRow, ReplacementFingerprintOf, ReplacePlanOf, SuccessorBinding,
         BootstrapOf, Complete;
  }

  lemma RecoverDecreases(w: World, pc: RecoverPc)
    ensures Remaining(StepRecover(w, pc).1) < Remaining(Recover(pc))
  {
    hide LatestBinding, LocalIdentity, SingleActive, Faithful, IsReplacementOf, RecentSaga;
  }

  lemma StepDecreases(w: World, pc: Pc)
    requires !pc.Done?
    ensures Remaining(Step(w, pc).1) < Remaining(pc)
  {
    hide StepPrepare, StepCheckpoint, StepReplace, StepRecover, StepDrive, TransitionStep, Reserve, Finalize, AckArgs, AttachArgs,
         DriveRemaining;
    match pc
    case Prepare(p) => PrepareDecreases(w, p);
    case Bridge(p) => BridgeDecreases(w, p);
    case Reconcile(p) =>
    case Checkpoint(p) => CheckpointDecreases(w, p);
    case Replace(p) => ReplaceDecreases(w, p);
    case Recover(p) => RecoverDecreases(w, p);
    case Drive(p) => DriveDecreases(w, p); DriveRemains(p);
  }

  lemma DriveRemains(pc: DrivePc)
    ensures Remaining(Drive(pc)) == DriveRemaining(pc)
  {
  }

  lemma BridgeDecreases(w: World, pc: BridgePc)
    ensures Remaining(StepBridge(w, pc).1) < Remaining(Bridge(pc))
  {
    hide Transition, AckArgs, AttachArgs;
  }

  /** A call run to its end. */
  ghost function Finish(w: World, pc: Pc): (World, Outcome)
    decreases Remaining(pc)
  {
    if pc.Done? then (w, pc.outcome)
    else
      StepDecreases(w, pc);
      var r := Step(w, pc);
      Finish(r.0, r.1)
  }

  /** A call cut after at most `k` steps. */
  ghost function Cut(w: World, pc: Pc, k: nat): (World, Pc)
    decreases k
  {
    if k == 0 || pc.Done? then (w, pc)
    else
      var r := Step(w, pc);
      Cut(r.0, r.1, k - 1)
  }

  /** Running on from where a call was cut ends where the call would have ended. */
  lemma {:induction false} CutFinishes(w: World, pc: Pc, k: nat)
    ensures Finish(w, pc) == Finish(Cut(w, pc, k).0, Cut(w, pc, k).1)
    decreases k
  {
    hide Step, Remaining;
    if k != 0 && !pc.Done? {
      CutFinishes(Step(w, pc).0, Step(w, pc).1, k - 1);
    }
  }

  lemma FinishByStep(w: World, pc: Pc)
    requires !pc.Done?
    ensures Finish(w, pc) == Finish(Step(w, pc).0, Step(w, pc).1)
  {
    hide Step, Remaining;
  }

  lemma FinishPrepare(w: World, pc: PreparePc)
    ensures Finish(w, Prepare(pc)) == Finish(StepPrepare(w, pc).0, StepPrepare(w, pc).1)
  {
    hide Finish, StepPrepare, StepBridge, StepReconcile, StepCheckpoint, StepReplace, StepRecover, StepDrive;
    FinishByStep(w, Prepare(pc));
  }

  lemma FinishBridge(w: World, pc: BridgePc)
    ensures Finish(w, Bridge(pc)) == Finish(StepBridge(w, pc).0, StepBridge(w, pc).1)
  {
    hide Finish, StepPrepare, StepBridge, StepReconcile, StepCheckpoint, StepReplace, StepRecover, StepDrive;
    FinishByStep(w, Bridge(pc));
  }

  lemma FinishCheckpoint(w: World, pc: CheckpointPc)
    ensures Finish(w, Checkpoint(pc)) == Finish(StepCheckpoint(w, pc).0, StepCheckpoint(w, pc).1)
  {
    hide Finish, StepPrepare, StepBridge, StepReconcile, StepCheckpoint, StepReplace, StepRecover, StepDrive;
    FinishByStep(w, Checkpoint(pc));
  }

  lemma FinishReplace(w: World, pc: ReplacePc)
    ensures Finish(w, Replace(pc)) == Finish(StepReplace(w, pc).0, StepReplace(w, pc).1)
  {
    hide Finish, StepPrepare, StepBridge, StepReconcile, StepCheckpoint, StepReplace, StepRecover, StepDrive;
    FinishByStep(w, Replace(pc));
  }

  lemma FinishReconcile(w: World, pc: ReconcilePc)
    ensures Finish(w, Reconcile(pc)) == Finish(StepReconcile(w, pc).0, StepReconcile(w, pc).1)
  {
    hide Finish, StepPrepare, StepBridge, StepReconcile, StepCheckpoint, StepReplace, StepRecover, StepDrive;
    FinishByStep(w, Reconcile(pc));
  }

  lemma FinishRecover(w: World, pc: RecoverPc)
    ensures Finish(w, Recover(pc)) == Finish(StepRecover(w, pc).0, StepRecover(w, pc).1)
  {
    hide Finish, StepPrepare, StepBridge, StepReconcile, StepCheckpoint, StepReplace, StepRecover, StepDrive;
    FinishByStep(w, Recover(pc));
  }

  lemma FinishDrive(w: World, pc: DrivePc)
    ensures Finish(w, Drive(pc)) == Finish(StepDrive(w, pc).0, StepDrive(w, pc).1)
  {
    hide Finish, StepPrepare, StepBridge, StepReconcile, StepCheckpoint, StepReplace, StepRecover, StepDrive;
    FinishByStep(w, Drive(pc));
  }

  lemma FinishDone(w: World, o: Outcome)
    ensures Finish(w, Done(o)) == (w, o)
  {
    hide Step;
  }
}
