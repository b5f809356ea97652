/**
 What can make a complete recovery proof incomplete again.  Step by step: the
 successor's own checkpoint, and a write that leaves another saga of the same
 predecessor unfinished and most recent.  Over runs: the second can only come
 from a call that read the predecessor before it was replaced.
 */
module InstanceProofSteps {
  import opened Prelude
  import opened InstanceContracts
  import opened InstanceTables
  import opened InstanceEffects
  import opened InstanceProtocol
  import opened InstanceChain
  import opened InstanceInvariant
  import opened InstanceCalls
  import opened InstanceDriveSteps
  import opened InstanceSteps
  import opened InstanceRuns
  import opened InstanceProperties
  import opened InstanceViews
  import opened InstanceSagaWrites
  import opened InstanceRowWrites

  // ---------------------------------------------------------------- the two steps

  /** The step commits a checkpoint of this binding. */
  predicate OwnCheckpoint(w: World, pc: Pc, id: BindingId) {
    && pc.Drive? && pc.drive.DriveCommit? && pc.drive.plan.CheckpointPlan?
    && var plan := pc.drive.plan;
    && plan.b.id == id && id in w.t.bindings && w.t.bindings[id].version == plan.expected
    && InstanceTables.Lookup(w.t.journal, plan.key).None?
  }

  /** The write leaves a saga of `p` unfinished, and makes it the latest. */
  predicate Unfinishes(t: Tables, write: SagaWrite, p: BindingId) {
    match write
    case NoWrite => false
    case Insert(key, row) => row.kind == ReplacementSaga && row.binding == p && key !in t.sagas
    case Climb(key, from, to) =>
      && to != LeaseFinalized && key in t.sagas
      && t.sagas[key].kind == ReplacementSaga && t.sagas[key].binding == p && t.sagas[key].state == from
  }

  /** The step hides the finished saga of `p` behind another one. */
  predicate Hides(w: World, pc: Pc, p: BindingId) {
    Unfinishes(w.t, WriteOf(pc), p)
  }

  lemma FinalizedByWrite(t: Tables, write: SagaWrite, t': Tables, p: BindingId)
    requires SagaFinalized(t, p) && p in t.bindings && WrittenTo(t, write, t') && (write.Climb? ==> write.from != LeaseFinalized)
    ensures SagaFinalized(t', p) <==> !Unfinishes(t, write, p)
  {
  }

  lemma ClimbsFromBelow(pc: Pc)
    ensures WriteOf(pc).Climb? ==> WriteOf(pc).from != LeaseFinalized
  {
  }

  // ---------------------------------------------------------------- the checkpoint version of a row

  /** Past PREPARED, a row's checkpoint version is only changed by a checkpoint transition of its own. */
  lemma VersionMoves(w: World, pc: Pc, id: BindingId, b': Binding)
    requires CallInv(w, pc) && id in w.t.bindings && w.t.bindings[id].status != Prepared && RowAfter(w.t, RowsOf(pc), id, b')
    ensures b'.checkpointVersion != w.t.bindings[id].checkpointVersion ==> OwnCheckpoint(w, pc, id)
  {
    hide PrepareInv, CheckpointInv, ReplaceInv, RecoverInv, ReconcileInv, BridgeInv, DriveInv, FingerprintOf;
  }

  /** The checkpoint transition that finds its row. */
  lemma OwnCheckpointMoves(w: World, pc: Pc, id: BindingId)
    requires Inv(w) && CallInv(w, pc) && OwnCheckpoint(w, pc, id)
    ensures id in Step(w, pc).0.t.bindings
    ensures Step(w, pc).0.t.bindings[id].checkpointVersion == w.t.bindings[id].checkpointVersion + 1
  {
    hide Inv, SagaSeen, Verified, InLog, PlatformTaken, FingerprintOf;
    var plan := pc.drive.plan;
    assert RowLater(plan.b, w.t.bindings[id]);
    assert Transition(w.t, CheckpointArgs(plan, pc.drive.e)).Ok?;
  }

  lemma VersionByStep(w: World, pc: Pc, id: BindingId)
    requires Inv(w) && CallInv(w, pc) && id in w.t.bindings && w.t.bindings[id].status != Prepared
    ensures id in Step(w, pc).0.t.bindings
    ensures Step(w, pc).0.t.bindings[id].checkpointVersion
            == w.t.bindings[id].checkpointVersion + (if OwnCheckpoint(w, pc, id) then 1 else 0)
  {
    hide Inv, CallInv, Step, RowAfter, OwnCheckpoint;
    StepRows(w, pc);
    if OwnCheckpoint(w, pc, id) {
      OwnCheckpointMoves(w, pc, id);
    } else {
      VersionMoves(w, pc, id, Step(w, pc).0.t.bindings[id]);
    }
  }

  // ---------------------------------------------------------------- the step theorem

  lemma ReplacedKept(w: World, w': World, p: BindingId)
    requires Later(w, w') && Inv(w') && p in w.t.bindings && w.t.bindings[p].status == Replaced
    ensures p in w'.t.bindings && w'.t.bindings[p] == w.t.bindings[p]
  {
    hide Inv, SagasLater, LogsLater, JournalLater, LeasesLater, LinkOk, BackedOk;
    assert RowLater(w.t.bindings[p], w'.t.bindings[p]);
    RowFact(w', p);
  }

  lemma IdentityKept(w: World, w': World, id: BindingId)
    requires Later(w, w') && id in w.t.bindings
    ensures id in w'.t.bindings && w'.t.bindings[id].predecessor == w.t.bindings[id].predecessor
    ensures w.t.bindings[id].status != Prepared ==> w'.t.bindings[id].status != Prepared
  {
    hide SagasLater, LogsLater, JournalLater, LeasesLater;
    assert RowLater(w.t.bindings[id], w'.t.bindings[id]);
  }

  /** A complete proof survives a step exactly when it is neither the successor's own checkpoint nor a hiding write. */
  lemma ProofByStep(w: World, pc: Pc, id: BindingId)
    requires Inv(w) && CallInv(w, pc) && Proven(w.t, id)
    ensures id in w.t.bindings && w.t.bindings[id].predecessor.Some?
    ensures Proven(Step(w, pc).0.t, id)
            <==> !OwnCheckpoint(w, pc, id) && !Hides(w, pc, w.t.bindings[id].predecessor.value)
  {
    hide Inv, CallInv, Step, Later, RecoveryComplete, SagaFinalized, OwnCheckpoint, WrittenTo, Unfinishes, WriteOf;
    ProvenWhen(w, id);
    var p, w' := w.t.bindings[id].predecessor.value, Step(w, pc).0;
    StepLands(w, pc);
    ProvenWhenIn(w', id);
    ReplacedKept(w, w', p);
    IdentityKept(w, w', id);
    VersionByStep(w, pc, id);
    StepWrites(w, pc);
    ClimbsFromBelow(pc);
    FinalizedByWrite(w.t, WriteOf(pc), w'.t, p);
  }

  lemma ProvenWhenIn(w: World, id: BindingId)
    requires Inv(w)
    ensures id in w.t.bindings ==>
              (var b := w.t.bindings[id];
               Proven(w.t, id) <==>
                 && b.predecessor.Some? && b.predecessor.value in w.t.bindings
                 && b.status != Prepared
                 && w.t.bindings[b.predecessor.value].status == Replaced
                 && b.checkpointVersion == w.t.bindings[b.predecessor.value].checkpointVersion + 1
                 && SagaFinalized(w.t, b.predecessor.value))
  {
    hide Inv, Proven, SagaFinalized;
    if id in w.t.bindings {
      ProvenWhen(w, id);
    }
  }

  // ---------------------------------------------------------------- runs

  /** A call of replace_instance that read `p` while it was CHECKPOINTED, and may yet begin a saga for it. */
  predicate StaleReader(pc: Pc, p: BindingId) {
    pc.Replace? &&
    match pc.replace
    case ReadExisting(_, q) => q.id == p && q.status == Checkpointed
    case ReadReplacementSaga(_, q) => q.id == p
    case ValidateReplacement(_, q) => q.id == p
    case ReadPrior(_, q, _) => q.id == p
    case ReserveReplacement(_, q, _) => q.id == p
    case BeginReplacement(_, q, _) => q.id == p
    case CreateSuccessor(_, q, _, _) => q.id == p
    case _ => false
  }

  /** A call that drives a saga of `p` that is not finished. */
  predicate UnfinishedDriver(w: World, pc: Pc, p: BindingId) {
    && pc.Drive? && !pc.drive.plan.CheckpointPlan? && pc.drive.plan.p.id == p
    && pc.drive.plan.key in w.t.sagas && w.t.sagas[pc.drive.plan.key].state != LeaseFinalized
  }

  predicate Rival(w: World, pc: Pc, p: BindingId) {
    StaleReader(pc, p) || UnfinishedDriver(w, pc, p)
  }

  /** Only a rival hides anything. */
  lemma HidingIsRival(w: World, pc: Pc, p: BindingId)
    requires CallInv(w, pc) && Hides(w, pc, p)
    ensures Rival(w, pc, p)
  {
    hide PlanOk, Seen, Adopted, Verified, InstanceCalls.Committed, LeaseTaken, FingerprintOf;
  }

  lemma SagaKept(w: World, w': World, key: Key)
    requires Later(w, w') && key in w.t.sagas && w.t.sagas[key].state == LeaseFinalized
    ensures key in w'.t.sagas && w'.t.sagas[key].state == LeaseFinalized
  {
    hide RowsLater, LogsLater, JournalLater, LeasesLater;
    assert SagaLater(w.t.sagas[key], w'.t.sagas[key]);
  }

  lemma DriverHasSaga(w: World, pc: Pc)
    requires CallInv(w, pc) && pc.Drive?
    ensures pc.drive.plan.key in w.t.sagas
  {
    hide PlanOk, Adopted, Verified, InstanceCalls.Committed, Seen, FingerprintOf;
  }

  /** A call that is no rival does not become one while others move. */
  lemma RivalLater(w: World, w': World, pc: Pc, p: BindingId)
    requires CallInv(w, pc) && Later(w, w') && !Rival(w, pc, p)
    ensures !Rival(w', pc, p)
  {
    hide CallInv, Later, StaleReader;
    if pc.Drive? {
      DriverHasSaga(w, pc);
      if w.t.sagas[pc.drive.plan.key].state == LeaseFinalized {
        SagaKept(w, w', pc.drive.plan.key);
      }
    }
  }

  /** The pair that cold recovery takes up has the finished saga. */
  lemma RecentRecovery(w: World, p: Binding, s: Binding, id: BindingId)
    requires SagaFinalized(w.t, id)
    ensures !Rival(w, ReadRecentSagaStep(w, p, s).1, id)
  {
  }

  lemma DriveGoesOn(w: World, pc: DrivePc)
    ensures var r := StepDrive(w, pc).1; r.Drive? ==> r.drive.plan == pc.plan
    ensures !StepDrive(w, pc).1.Replace?
  {
    hide Transition, CommitReplacement, Finalize, AdvanceSaga, Accepts, IsReplacementOf, CheckpointArgs, ReplaceArgs, RecoveryArgs,
         PlannedEvent, RecoveryPayload, CommittedPair;
  }

  /** What a step of replace_instance goes on with is about the binding it started with. */
  predicate GoesOnElsewhere(pc: Pc, p: BindingId) {
    !StaleReader(pc, p) && (pc.Drive? ==> pc.drive.plan.ReplacePlan? && pc.drive.plan.p.id != p)
  }

  lemma ExistingGoesOn(w: World, cmd: ReplaceCmd, q: Binding, p: BindingId)
    requires q.id == cmd.binding && !StaleReader(Replace(ReadExisting(cmd, q)), p)
    ensures GoesOnElsewhere(ReadExistingStep(w, cmd, q).1, p)
  {
    hide BootstrapOf, ByIdempotency;
  }

  lemma SuccessorGoesOn(w: World, cmd: ReplaceCmd, q: Binding, prior: HazelEvent, st: SagaState, p: BindingId)
    requires q.id != p
    ensures GoesOnElsewhere(CreateSuccessorStep(w, cmd, q, prior, st).1, p)
  {
    hide Create, SuccessorBinding, CarriedPayload;
  }

  lemma PreviousGoesOn(w: World, cmd: ReplaceCmd, p: BindingId)
    requires p in w.t.bindings && w.t.bindings[p].status == Replaced && Rows(w.t.bindings)
    ensures GoesOnElsewhere(ReadPreviousStep(w, cmd).1, p)
  {
    hide Complete;
    if cmd.binding in w.t.bindings {
      assert RowOk(cmd.binding, w.t.bindings[cmd.binding]);
    }
  }

  predicate Preparing(pc: ReplacePc) {
    pc.ReadReplacementSaga? || pc.ValidateReplacement? || pc.ReadPrior? || pc.ReserveReplacement? || pc.BeginReplacement?
  }

  lemma PreparingGoesOn(w: World, pc: ReplacePc, p: BindingId)
    requires Preparing(pc) && pc.p.id != p
    ensures GoesOnElsewhere(StepReplace(w, pc).1, p)
  {
    hide BeginSaga, Reserve, LeaseValid, ReplacementRow, ReplacementFingerprintOf, ReadPreviousStep, ReadExistingStep, CreateSuccessorStep,
         FinishDoneSagaStep;
  }

  lemma DoneGoesOn(w: World, pc: ReplacePc, p: BindingId)
    requires pc.ReadDoneSaga? || pc.FinishDoneSaga?
    ensures GoesOnElsewhere(StepReplace(w, pc).1, p)
  {
    hide AdvanceSaga, ReadPreviousStep, ReadExistingStep, CreateSuccessorStep, ReadReplacementSagaStep, ReadPriorStep,
         ReserveReplacementStep, BeginReplacementStep;
  }

  lemma ReplaceGoesOn(w: World, pc: ReplacePc, p: BindingId)
    requires ReplaceInv(w, pc) && !StaleReader(Replace(pc), p)
    requires p in w.t.bindings && w.t.bindings[p].status == Replaced && Rows(w.t.bindings)
    ensures GoesOnElsewhere(StepReplace(w, pc).1, p)
  {
    hide GoesOnElsewhere, LeaseValid, CreateSuccessorStep, ReadExistingStep, ReadPreviousStep, ReadReplacementSagaStep, ReadPriorStep,
         ReserveReplacementStep, BeginReplacementStep, FinishDoneSagaStep, Rows, Seen, SagaSeen, LeaseSettled, LeaseTaken;
    if Preparing(pc) {
      PreparingGoesOn(w, pc, p);
    } else {
      match pc
      case ReadPrevious(cmd) => PreviousGoesOn(w, cmd, p);
      case ReadExisting(cmd, q) => ExistingGoesOn(w, cmd, q, p);
      case CreateSuccessor(cmd, q, prior, st) => SuccessorGoesOn(w, cmd, q, prior, st, p);
      case _ => DoneGoesOn(w, pc, p);
    }
  }

  lemma CheckpointGoesOn(w: World, pc: CheckpointPc)
    requires CheckpointInv(w, pc)
    ensures var r := StepCheckpoint(w, pc).1; !r.Replace? && (r.Drive? ==> r.drive.plan.CheckpointPlan?)
  {
    hide BeginSaga, AdvanceSaga, Reserve, LeaseValid, FingerprintOf, SagaRow, SameCheckpoint, Seen, PlanOk, DriveOk, InstanceCalls.Committed,
         LeaseTaken, ExpectedOk;
  }

  lemma RecoverGoesOn(w: World, pc: RecoverPc, p: BindingId)
    requires SagaFinalized(w.t, p)
    ensures !Rival(w, StepRecover(w, pc).1, p)
  {
    hide LatestBinding, LocalIdentity, SingleActive, Faithful, IsReplacementOf, Rival, ReadRecentSagaStep;
    if pc.ReadRecentSaga? {
      RecentRecovery(w, pc.p, pc.s, p);
    } else {
      NoRival(w, StepRecover(w, pc).1, p);
    }
  }

  lemma NoRival(w: World, pc: Pc, p: BindingId)
    requires !pc.Replace? && !pc.Drive?
    ensures !Rival(w, pc, p)
  {
  }

  /** The continuation of a call that is no rival is none, in the world before the step. */
  lemma RivalGoesOn(w: World, pc: Pc, p: BindingId)
    requires Inv(w) && CallInv(w, pc) && !Rival(w, pc, p)
    requires p in w.t.bindings && w.t.bindings[p].status == Replaced && SagaFinalized(w.t, p)
    ensures !Rival(w, Step(w, pc).1, p)
  {
    hide Inv, Rival, PrepareInv, CheckpointInv, ReplaceInv, RecoverInv, DriveInv, StepPrepare, StepCheckpoint, StepReplace, StepRecover,
         StepDrive, SagaFinalized, StaleReader, TransitionStep, Reserve, Finalize, AckArgs, AttachArgs;
    match pc
    case Prepare(q) => PrepareGoesOn(w, q); NoRival(w, Step(w, pc).1, p);
    case Bridge(q) => BridgeGoesOn(w, q); NoRival(w, Step(w, pc).1, p);
    case Reconcile(q) => ReconcileGoesOn(w, q, p);
    case Checkpoint(q) => CheckpointGoesOn(w, q); OtherKind(w, Step(w, pc).1, p);
    case Replace(q) =>
      InvRows(w);
      NotStale(w, pc, p);
      ReplaceGoesOn(w, q, p);
      OtherPair(w, Step(w, pc).1, p);
    case Recover(q) => RecoverGoesOn(w, q, p);
    case Drive(q) =>
      DriveGoesOn(w, q);
      SamePlan(w, pc, Step(w, pc).1, p);
    case Done(_) =>
  }

  lemma NotStale(w: World, pc: Pc, p: BindingId)
    requires !Rival(w, pc, p)
    ensures !StaleReader(pc, p)
  {
    hide StaleReader;
  }

  lemma OtherKind(w: World, pc: Pc, p: BindingId)
    requires !pc.Replace? && (pc.Drive? ==> pc.drive.plan.CheckpointPlan?)
    ensures !Rival(w, pc, p)
  {
  }

  lemma OtherPair(w: World, pc: Pc, p: BindingId)
    requires !StaleReader(pc, p) && (pc.Drive? ==> pc.drive.plan.ReplacePlan? && pc.drive.plan.p.id != p)
    ensures !Rival(w, pc, p)
  {
    hide StaleReader;
  }

  lemma SamePlan(w: World, pc: Pc, pc': Pc, p: BindingId)
    requires pc.Drive? && !Rival(w, pc, p) && !pc'.Replace? && (pc'.Drive? ==> pc'.drive.plan == pc.drive.plan)
    ensures !Rival(w, pc', p)
  {
  }

  lemma PrepareGoesOn(w: World, pc: PreparePc)
    ensures var r := StepPrepare(w, pc).1; !r.Replace? && !r.Drive?
  {
    hide Transition, Create, Finalize, Reserve, Accepts, PrepareEvent, PersistedArgs, RootBinding, BootstrapOf, LeaseValid, Complete;
  }

  lemma BridgeGoesOn(w: World, pc: BridgePc)
    ensures var r := StepBridge(w, pc).1; !r.Replace? && !r.Drive?
  {
    hide Transition, AckArgs, AttachArgs;
  }

  lemma ReconcileGoesOn(w: World, pc: ReconcilePc, p: BindingId)
    ensures !Rival(w, StepReconcile(w, pc).1, p)
  {
    hide Reserve, Finalize;
  }

  /** The predecessor is replaced by a finished saga, and nobody in flight can hide it. */
  ghost predicate Quiet(s: System, p: BindingId) {
    && p in s.w.t.bindings && s.w.t.bindings[p].status == Replaced && SagaFinalized(s.w.t, p)
    && forall i :: 0 <= i < |s.calls| ==> !Rival(s.w, s.calls[i], p)
  }

  lemma RivalsLater(w: World, w': World, calls: seq<Pc>, p: BindingId)
    requires CallsOk(w, calls) && Later(w, w') && forall i :: 0 <= i < |calls| ==> !Rival(w, calls[i], p)
    ensures forall i :: 0 <= i < |calls| ==> !Rival(w', calls[i], p)
  {
    hide Later, CallInv, Rival;
    forall i | 0 <= i < |calls| ensures !Rival(w', calls[i], p) {
      RivalLater(w, w', calls[i], p);
    }
  }

  lemma QuietAdvance(s: System, i: nat, p: BindingId)
    requires SystemInv(s) && Quiet(s, p) && i < |s.calls|
    ensures Quiet(After(s, Advance(i)), p)
  {
    hide Inv, Later, CallInv, Rival, SagaFinalized, Step, WrittenTo, WriteOf, Unfinishes;
    var pc := s.calls[i];
    var r := Step(s.w, pc);
    StepLands(s.w, pc);
    ReplacedKept(s.w, r.0, p);
    StepWrites(s.w, pc);
    if Hides(s.w, pc, p) {
      HidingIsRival(s.w, pc, p);
    }
    ClimbsFromBelow(pc);
    FinalizedByWrite(s.w.t, WriteOf(pc), r.0.t, p);
    RivalsLater(s.w, r.0, s.calls, p);
    RivalGoesOn(s.w, pc, p);
    ContinuationLater(s.w, pc, p);
  }

  /** The continuation stays no rival after the very step that led to it. */
  lemma ContinuationLater(w: World, pc: Pc, p: BindingId)
    requires Inv(w) && CallInv(w, pc) && !Rival(w, Step(w, pc).1, p)
    ensures !Rival(Step(w, pc).0, Step(w, pc).1, p)
  {
    hide Inv, Later, CallInv, StaleReader, Step;
    StepLands(w, pc);
    var r := Step(w, pc);
    if r.1.Drive? && !r.1.drive.plan.CheckpointPlan? && r.1.drive.plan.p.id == p {
      ContinuationSaga(w, pc);
      SagaKept(w, r.0, r.1.drive.plan.key);
    }
  }

  /** A call that drives a replacement next has its saga already. */
  lemma ContinuationSaga(w: World, pc: Pc)
    requires Inv(w) && CallInv(w, pc) && Step(w, pc).1.Drive? && !Step(w, pc).1.drive.plan.CheckpointPlan?
    ensures Step(w, pc).1.drive.plan.key in w.t.sagas
  {
    hide Inv, CallInv, StepDrive, StepReplace, StepRecover, StepCheckpoint, StepPrepare, StepBridge, StepReconcile;
    match pc
    case Prepare(q) => PrepareGoesOn(w, q);
    case Bridge(q) => BridgeGoesOn(w, q);
    case Reconcile(q) => ReconcileDrivesNothing(w, q);
    case Checkpoint(q) => CheckpointInvOf(w, pc); CheckpointGoesOn(w, q);
    case Replace(q) => ReplaceInvOf(w, pc); ReplaceHasSaga(w, q);
    case Recover(q) => RecoverHasSaga(w, q);
    case Drive(q) => DriverHasSaga(w, pc); DriveGoesOn(w, q);
    case Done(_) =>
  }

  lemma CheckpointInvOf(w: World, pc: Pc)
    requires CallInv(w, pc) && pc.Checkpoint?
    ensures CheckpointInv(w, pc.checkpoint)
  {
    hide CheckpointInv;
  }

  lemma ReplaceInvOf(w: World, pc: Pc)
    requires CallInv(w, pc) && pc.Replace?
    ensures ReplaceInv(w, pc.replace)
  {
    hide ReplaceInv;
  }

  lemma ReconcileDrivesNothing(w: World, pc: ReconcilePc)
    ensures !StepReconcile(w, pc).1.Drive?
  {
    hide Reserve, Finalize;
  }

  lemma ReplaceHasSaga(w: World, pc: ReplacePc)
    requires ReplaceInv(w, pc)
    ensures var r := StepReplace(w, pc).1; r.Drive? ==> r.drive.plan.key in w.t.sagas
  {
    hide BeginSaga, AdvanceSaga, Reserve, LeaseValid, Create, ReplacementRow, ReplacementFingerprintOf, SuccessorBinding,
         BootstrapOf, Complete, Seen, LeaseSettled, LeaseTaken, CarriedPayload, ByIdempotency;
  }

  lemma RecoverHasSaga(w: World, pc: RecoverPc)
    ensures var r := StepRecover(w, pc).1; r.Drive? ==> r.drive.plan.key in w.t.sagas
  {
    hide LatestBinding, LocalIdentity, SingleActive, Faithful, IsReplacementOf;
  }

  lemma QuietAfter(s: System, h: Happening, p: BindingId)
    requires SystemInv(s) && Quiet(s, p)
    ensures Quiet(After(s, h), p)
  {
    hide Inv, Later, CallInv, SagaFinalized, Step, LeasesAfter;
    match h
    case Start(pc) => if EntersWell(s.w, pc) { EntryIsNoRival(s.w, pc, p); }
    case Advance(i) => if i < |s.calls| { QuietAdvance(s, i, p); }
    case Lose(_) =>
    case Crash =>
    case Issue(_, _) => SameTables(s, After(s, h), p);
    case Revoke(_) => SameTables(s, After(s, h), p);
    case Release(_) => SameTables(s, After(s, h), p);
  }

  lemma EntryIsNoRival(w: World, pc: Pc, p: BindingId)
    requires EntersWell(w, pc)
    ensures !Rival(w, pc, p)
  {
    hide ExpectedOk;
  }

  lemma SameTables(s: System, s': System, p: BindingId)
    requires Quiet(s, p) && s'.w.t == s.w.t && s'.calls == s.calls
    ensures Quiet(s', p)
  {
    hide SagaFinalized, StaleReader;
    forall i | 0 <= i < |s'.calls| ensures !Rival(s'.w, s'.calls[i], p) {
      assert !Rival(s.w, s.calls[i], p);
    }
  }

  /** Quiet stays quiet, whatever is called from now on. */
  lemma {:induction false} QuietRun(s: System, hs: seq<Happening>, p: BindingId)
    requires SystemInv(s) && Quiet(s, p)
    ensures Quiet(Exec(s, hs), p)
  {
    hide SystemInv, Quiet, After, Later;
    if hs != [] {
      QuietRun(s, DropLast(hs), p);
      ExecOk(s, DropLast(hs));
      QuietAfter(Exec(s, DropLast(hs)), Last(hs), p);
    }
  }

  /**
   A complete proof, with no rival in flight: along every run, with any calls
   started later, it is complete exactly until the successor's own checkpoint.
   */
  lemma ProofHoldsUntilCheckpoint(s: System, hs: seq<Happening>, id: BindingId, p: BindingId)
    requires SystemInv(s) && Proven(s.w.t, id) && s.w.t.bindings[id].predecessor == Some(p)
    requires forall i :: 0 <= i < |s.calls| ==> !Rival(s.w, s.calls[i], p)
    ensures id in Exec(s, hs).w.t.bindings
    ensures Proven(Exec(s, hs).w.t, id)
            <==> Exec(s, hs).w.t.bindings[id].checkpointVersion == s.w.t.bindings[id].checkpointVersion
  {
    hide SystemInv, Proven, Exec, Rival, SagaFinalized;
    ProvenPartsIn(s, id);
    ProofStays(s, hs, id);
    QuietRun(s, hs, p);
  }

  lemma ProvenPartsIn(s: System, id: BindingId)
    requires SystemInv(s) && Proven(s.w.t, id)
    ensures id in s.w.t.bindings
    ensures var b := s.w.t.bindings[id];
            && b.predecessor.Some? && b.predecessor.value in s.w.t.bindings
            && s.w.t.bindings[b.predecessor.value].status == Replaced && SagaFinalized(s.w.t, b.predecessor.value)
  {
    hide SystemInv, Inv, RecoveryComplete, SagaFinalized;
    ProvenIn(s.w.t, id);
    SystemIsInv(s);
    ProvenWhen(s.w, id);
  }
}
