/**
 Every step of every call keeps the invariant, moves the world forward only,
 and leaves the call with the facts its next step relies on.  The saga driver
 has a module of its own; here are prepare, the bridge, lease reconciliation,
 and the parts of checkpoint, replace_instance and recovery that precede it.
 */
module InstanceSteps {
  import opened Prelude
  import opened InstanceContracts
  import opened InstanceTables
  import opened InstanceEffects
  import opened InstanceProtocol
  import opened InstanceChain
  import opened InstanceInvariant
  import opened InstanceCalls
  import opened InstanceDriveSteps

  lemma Goes(w: World, w': World, pc: Pc)
    requires Inv(w') && Later(w, w') && CallInv(w', pc)
    ensures Lands(w, (w', pc))
  {
    hide Inv, Later, CallInv;
  }

  // ---------------------------------------------------------------- leases

  lemma ReserveKeeps(w: World, id: string, key: Key, use: ActionId)
    requires Inv(w) && Reserve(w.leases, id, key, use).Ok?
    ensures var w' := w.(leases := Reserve(w.leases, id, key, use).value);
            Inv(w') && Later(w, w') && LeaseTaken(w', id)
  {
    hide Inv, Later, Reserve, LeasesOk, LeasesLater;
    InvLeases(w);
    ReserveLater(w.leases, id, key, use);
    LeaseWriteKeeps(w, Reserve(w.leases, id, key, use).value);
  }

  lemma FinalizeKeeps(w: World, id: string)
    requires Inv(w) && Finalize(w.leases, id).Ok?
    ensures var w' := w.(leases := Finalize(w.leases, id).value);
            Inv(w') && Later(w, w') && LeaseSettled(w', id)
  {
    hide Inv, Later, Finalize, LeasesOk, LeasesLater, Settled;
    InvLeases(w);
    FinalizeLater(w.leases, id);
    LeaseWriteKeeps(w, Finalize(w.leases, id).value);
  }

  // ---------------------------------------------------------------- prepare

  lemma LookupLands(w: World, r: Request, now: int)
    requires Inv(w)
    ensures Lands(w, LookupStep(w, r, now))
  {
    hide Inv, Lands, Seen, BootstrapOf, Rows;
    InvRows(w);
    ExistingRow(w.t.bindings, r.key);
    var found := ByIdempotency(w.t.bindings, r.key);
    if found.Some? {
      SeenRow(w, found.value.id);
    }
    Stays(w, LookupStep(w, r, now).1);
  }

  /** MAX(generation) is positive only when the lineage has a row. */
  lemma GenerationLands(w: World, r: Request, now: int)
    requires Inv(w)
    ensures Lands(w, GenerationStep(w, r, now))
  {
    hide Inv, Lands;
    if r.lineage.ocs in w.profiles {
      var g := LatestGeneration(w.t.bindings, r.lineage);
      assert g > 0 ==> LineageKnown(w.t.bindings, r.lineage);
      Stays(w, Prepare(ReserveNew(RootBinding(w, r, g + 1, now))));
    } else {
      Fails(w, UnknownOcs);
    }
  }

  lemma ReserveNewLands(w: World, b: Binding)
    requires Inv(w) && RootOk(w, b)
    ensures Lands(w, ReserveNewStep(w, b))
  {
    hide Inv, Later, Lands, RootOk, LeaseTaken, Reserve;
    match Reserve(w.leases, b.leaseId, b.key, BindUse(b.id))
    case Err(e) => Fails(w, e);
    case Ok(ls) =>
      ReserveKeeps(w, b.leaseId, b.key, BindUse(b.id));
      RootLater(w, w.(leases := ls), b);
      Goes(w, w.(leases := ls), Prepare(CreateNew(b)));
  }

  lemma CreateNewLands(w: World, b: Binding)
    requires Inv(w) && RootOk(w, b)
    ensures Lands(w, CreateNewStep(w, b))
  {
    hide Inv, Later, Lands, Create, Seen;
    match Create(w.t, b)
    case Err(e) => Fails(w, e);
    case Ok(r) =>
      CreateKeeps(w, b);
      SeenRow(w.(t := r.0), r.1.id);
      Goes(w, w.(t := r.0), Prepare(FinalizeNew(r.1)));
  }

  lemma FinalizeNewLands(w: World, b: Binding)
    requires Inv(w) && Seen(w, b)
    ensures Lands(w, FinalizeNewStep(w, b))
  {
    hide Inv, Later, Lands, Finalize, Seen, LeaseSettled;
    match Finalize(w.leases, b.leaseId)
    case Err(e) => Fails(w, e);
    case Ok(ls) =>
      FinalizeKeeps(w, b.leaseId);
      SeenLater(w, w.(leases := ls), b);
      Goes(w, w.(leases := ls), Prepare(HazelCheck(b)));
  }

  lemma HazelCheckLands(w: World, b: Binding)
    requires Inv(w) && Seen(w, b)
    ensures Lands(w, HazelCheckStep(w, b))
  {
    hide Inv, Lands, Seen, InLog;
    if Run(w.hazel, b.lineage) != [] {
      LastFact(w, b.lineage);
    }
    Stays(w, HazelCheckStep(w, b).1);
  }

  lemma PrepareMayPersist(w: World, b: Binding)
    requires Seen(w, b)
    ensures MayPersist(w.t.bindings, PrepareEvent(b), b.id)
  {
    hide Inv;
    SeenIdentity(w, b);
  }

  lemma HazelWriteLands(w: World, b: Binding)
    requires Inv(w) && Seen(w, b)
    ensures Lands(w, HazelWriteStep(w, b))
  {
    hide Inv, Later, Lands, Seen, InLog, MayPersist, Accepts;
    match Persist(w.hazel, PrepareEvent(b))
    case Err(e) => Fails(w, e);
    case Ok(h) =>
      PrepareMayPersist(w, b);
      HazelWriteKeeps(w, PrepareEvent(b), b.id);
      SeenLater(w, w.(hazel := h), b);
      Goes(w, w.(hazel := h), Prepare(HazelReadback(b, PrepareEvent(b))));
  }

  lemma HazelReadbackLands(w: World, b: Binding, e: HazelEvent)
    requires Inv(w) && PreparedInLog(w, b, e)
    ensures Lands(w, HazelReadbackStep(w, b, e))
  {
    hide Inv, Lands, PreparedInLog;
    Stays(w, HazelReadbackStep(w, b, e).1);
  }

  /** A transition that ends its call. */
  lemma TransitionLands(w: World, a: TransitionArgs)
    requires Inv(w) && MayTransition(w, a)
    ensures Lands(w, TransitionStep(w, a))
  {
    hide Inv, Later, Lands, MayTransition, Transition, Seen;
    match Transition(w.t, a)
    case Err(x) => Fails(w, x);
    case Ok(r) =>
      TransitionKeeps(w, a);
      SeenRow(w.(t := r.0), a.binding);
      Goes(w, w.(t := r.0), Done(Returned(r.1)));
  }

  /** Only the first binding of a run finds its own preparation in Hazel. */
  lemma PersistedMay(w: World, b: Binding, e: HazelEvent)
    requires Inv(w) && PreparedInLog(w, b, e)
    ensures MayTransition(w, PersistedArgs(b, e))
  {
    hide Inv, LinkOk;
    var row := w.t.bindings[b.id];
    RowFact(w, b.id);
    EventFact(w, e);
    assert RowLater(b, row);
    if row.status == Prepared {
      PreparedNotReplaced(w, b.id);
    }
  }

  lemma PreparedNotReplaced(w: World, id: BindingId)
    requires Inv(w) && id in w.t.bindings && w.t.bindings[id].status == Prepared
    ensures Unreplaced(w.hazel, id, 1)
  {
    hide Inv, NamesOk;
    forall l, i | l in w.hazel && 0 <= i < |w.hazel[l]|
      ensures !(w.hazel[l][i].payload.ReplacementPayload? && w.hazel[l][i].payload.recoveredFrom == id)
    {
      NotReplacedWhilePrepared(w, l, i, id);
    }
  }

  lemma NotReplacedWhilePrepared(w: World, l: Lineage, i: nat, id: BindingId)
    requires Inv(w) && id in w.t.bindings && w.t.bindings[id].status == Prepared
    requires i < |Run(w.hazel, l)|
    ensures var x := Run(w.hazel, l)[i]; !(x.payload.ReplacementPayload? && x.payload.recoveredFrom == id)
  {
    hide Inv;
    LogFact(w, l, i);
  }

  lemma PrepareLands(w: World, pc: PreparePc)
    requires Inv(w) && PrepareInv(w, pc)
    ensures Lands(w, StepPrepare(w, pc))
  {
    hide Inv, RootOk, Seen, PreparedInLog, Lands, LeaseValid, MayTransition;
    hide LookupStep, GenerationStep, ReserveNewStep, CreateNewStep, FinalizeNewStep, HazelCheckStep, HazelWriteStep,
         HazelReadbackStep, TransitionStep;
    match pc
    case Lookup(r, now) => LookupLands(w, r, now);
    case Validate(r, now) => Stays(w, StepPrepare(w, pc).1);
    case Generation(r, now) => GenerationLands(w, r, now);
    case ReserveNew(b) => ReserveNewLands(w, b);
    case CreateNew(b) => CreateNewLands(w, b);
    case FinalizeNew(b) => FinalizeNewLands(w, b);
    case HazelCheck(b) => HazelCheckLands(w, b);
    case HazelWrite(b) => HazelWriteLands(w, b);
    case HazelReadback(b, e) => HazelReadbackLands(w, b, e);
    case HazelCommit(b, e) =>
      PersistedMay(w, b, e);
      TransitionLands(w, PersistedArgs(b, e));
  }

  // ---------------------------------------------------------------- bridge

  /** The checkpoint columns stay; the row moves between two statuses of a holder. */
  lemma StatusMay(w: World, a: TransitionArgs)
    requires Inv(w) && a.binding in w.t.bindings
    requires var b := w.t.bindings[a.binding];
             b.version == a.expected && a.target in Allowed(b.status) ==>
               (b.status == Persisted && a.target == Bound) || (b.status == Bound && a.target == Active)
    requires a.change.checkpointVersion.None? && a.change.checkpoint.None? && a.change.event.None?
    requires a.kind == PlatformAttached || a.kind == BootstrapAcknowledged
    ensures MayTransition(w, a)
  {
    hide Inv, LinkOk, Unreplaced, HazelOk;
    RowFact(w, a.binding);
    InvHazel(w);
    UnreplacedBySame(w.t.bindings, w.hazel, a.binding);
  }

  lemma InvHazel(w: World)
    requires Inv(w)
    ensures HazelOk(w.t.bindings, w.hazel)
  {
    hide LeasesOk, Chain, HazelOk, JournalOk, SagasOk, RecentOk, Driven;
  }

  lemma AttachLands(w: World, a: AttachCmd)
    requires Inv(w)
    ensures Lands(w, AttachStep(w, a))
  {
    hide Inv, Lands, MayTransition, TransitionStep;
    if a.platform == "" || a.task == "" || !a.taskMatches {
      Fails(w, TaskMismatch);
    } else {
      if a.binding in w.t.bindings {
        StatusMay(w, AttachArgs(a));
      } else {
        UnknownMay(w, AttachArgs(a));
      }
      TransitionLands(w, AttachArgs(a));
    }
  }

  lemma UnknownMay(w: World, a: TransitionArgs)
    requires a.binding !in w.t.bindings
    ensures MayTransition(w, a)
  {
  }

  lemma AckReadLands(w: World, a: Ack)
    requires Inv(w) && ExpectedOk(w, a.binding, a.expected)
    ensures Lands(w, AckReadStep(w, a))
  {
    hide Inv, Lands, Seen;
    if a.binding in w.t.bindings {
      SeenRow(w, a.binding);
      RowFact(w, a.binding);
    }
    Stays(w, AckReadStep(w, a).1);
  }

  /** An acknowledgement that goes through finds the BOUND row it has checked. */
  lemma AckMay(w: World, a: Ack, b: Binding)
    requires Inv(w) && BridgeInv(w, AckCommit(a, b))
    ensures MayTransition(w, AckArgs(a))
  {
    hide Inv, MayTransition, InLog;
    assert RowLater(b, w.t.bindings[b.id]);
    StatusMay(w, AckArgs(a));
  }

  lemma BridgeLands(w: World, pc: BridgePc)
    requires Inv(w) && BridgeInv(w, pc)
    ensures Lands(w, StepBridge(w, pc))
  {
    hide Inv, Lands, MayTransition, TransitionStep, AttachStep, AckReadStep, ExpectedOk, Seen;
    match pc
    case AttachCommit(a) => AttachLands(w, a);
    case AckRead(a) => AckReadLands(w, a);
    case AckCommit(a, b) =>
      AckMay(w, a, b);
      TransitionLands(w, AckArgs(a));
  }

  // ---------------------------------------------------------------- lease reconciliation

  lemma ResumedInv(w: World, b: Binding, resume: Resume)
    requires Seen(w, b) && ResumeOk(b, resume) && LeaseSettled(w, b.leaseId)
    ensures CallInv(w, Resumed(b, resume))
  {
    hide Seen, LeaseSettled;
  }

  lemma LeaseCheckLands(w: World, b: Binding, resume: Resume)
    requires Inv(w) && Seen(w, b) && ResumeOk(b, resume)
    ensures Lands(w, LeaseCheckStep(w, b, resume))
  {
    hide Inv, Lands, Seen, Resumed, ResumeOk;
    if b.leaseId in w.leases && w.leases[b.leaseId].state == LeaseReleased {
      ResumedInv(w, b, resume);
    }
    Stays(w, LeaseCheckStep(w, b, resume).1);
  }

  lemma LeaseReserveLands(w: World, b: Binding, resume: Resume)
    requires Inv(w) && Seen(w, b) && ResumeOk(b, resume)
    ensures Lands(w, LeaseReserveStep(w, b, resume))
  {
    hide Inv, Later, Lands, Seen, ResumeOk, LeaseTaken, Reserve;
    match Reserve(w.leases, b.leaseId, b.key, BindUse(b.id))
    case Err(e) => Fails(w, e);
    case Ok(ls) =>
      ReserveKeeps(w, b.leaseId, b.key, BindUse(b.id));
      SeenLater(w, w.(leases := ls), b);
      Goes(w, w.(leases := ls), Reconcile(LeaseFinalize(b, resume)));
  }

  lemma LeaseFinalizeLands(w: World, b: Binding, resume: Resume)
    requires Inv(w) && Seen(w, b) && ResumeOk(b, resume)
    ensures Lands(w, LeaseFinalizeStep(w, b, resume))
  {
    hide Inv, Later, Lands, Seen, ResumeOk, Resumed, LeaseSettled, Finalize;
    match Finalize(w.leases, b.leaseId)
    case Err(e) => Fails(w, e);
    case Ok(ls) =>
      FinalizeKeeps(w, b.leaseId);
      SeenLater(w, w.(leases := ls), b);
      ResumedInv(w.(leases := ls), b, resume);
      Goes(w, w.(leases := ls), Resumed(b, resume));
  }

  lemma ReconcileLands(w: World, pc: ReconcilePc)
    requires Inv(w) && ReconcileInv(w, pc)
    ensures Lands(w, StepReconcile(w, pc))
  {
    hide Inv, Lands, Seen, ResumeOk, LeaseCheckStep, LeaseReserveStep, LeaseFinalizeStep;
    match pc
    case LeaseCheck(b, resume) => LeaseCheckLands(w, b, resume);
    case LeaseReserve(b, resume) => LeaseReserveLands(w, b, resume);
    case LeaseFinalize(b, resume) => LeaseFinalizeLands(w, b, resume);
  }

  // ---------------------------------------------------------------- checkpoint

  lemma ReadBindingLands(w: World, cmd: CheckpointCmd)
    requires Inv(w) && ExpectedOk(w, cmd.binding, cmd.expected)
    ensures Lands(w, ReadBindingStep(w, cmd))
  {
    hide Inv, Lands, Seen;
    if cmd.binding in w.t.bindings {
      SeenRow(w, cmd.binding);
      RowFact(w, cmd.binding);
    }
    Stays(w, ReadBindingStep(w, cmd).1);
  }

  lemma CheckpointPlanOk(w: World, cmd: CheckpointCmd, b: Binding)
    requires WorkerSeen(w, cmd, b)
    ensures PlanOk(w, CheckpointPlanOf(cmd, b))
  {
    hide Seen;
  }

  /** The saga row under the key is the one this very request has begun. */
  lemma CheckpointDriveOk(w: World, cmd: CheckpointCmd, b: Binding)
    requires Inv(w) && WorkerSeen(w, cmd, b) && cmd.key in w.t.sagas
    requires w.t.sagas[cmd.key].binding == b.id && w.t.sagas[cmd.key].fingerprint == FingerprintOf(CheckpointPlanOf(cmd, b))
    ensures DriveOk(w, CheckpointPlanOf(cmd, b), w.t.sagas[cmd.key].state)
    ensures DriveOk(w, CheckpointPlanOf(cmd, b), LeaseReserved)
  {
    hide Inv, Seen, SagaEffect, SagaRows, SagaJournal, SagaLease;
    CheckpointPlanOk(w, cmd, b);
    SagaFact(w, cmd.key);
  }

  lemma ReadReplayLands(w: World, cmd: CheckpointCmd, b: Binding)
    requires Inv(w) && WorkerSeen(w, cmd, b)
    ensures Lands(w, ReadReplayStep(w, cmd, b))
  {
    hide Inv, Lands, Seen, DriveOk, PlanOk;
    var plan := CheckpointPlanOf(cmd, b);
    var replay := InstanceTables.Lookup(w.t.journal, cmd.key);
    if replay.Some? && SameCheckpoint(replay.value, b.id, FingerprintOf(plan)) && b.id in w.t.bindings {
      DrivenFact(w, cmd.key);
      CheckpointDriveOk(w, cmd, b);
      CheckpointPlanOk(w, cmd, b);
      SeenRow(w, b.id);
      Stays(w, Checkpoint(ReadReplaySaga(plan, w.t.bindings[b.id])));
    } else {
      Stays(w, ReadReplayStep(w, cmd, b).1);
    }
  }

  lemma ReadReplaySagaLands(w: World, plan: Plan, r: Binding)
    requires Inv(w) && CheckpointInv(w, ReadReplaySaga(plan, r))
    ensures Lands(w, ReadReplaySagaStep(w, plan, r))
  {
    hide Inv, Lands, Seen, DriveOk, PlanOk, Committed;
    SagaIn(w, plan, LeaseReserved);
    DriveOkAt(w, plan, LeaseReserved, w.t.sagas[plan.key].state);
    Stays(w, ReadReplaySagaStep(w, plan, r).1);
  }

  lemma VerifyReplayLands(w: World, plan: Plan, st: SagaState, r: Binding)
    requires Inv(w) && CheckpointInv(w, VerifyReplay(plan, st, r))
    ensures Lands(w, VerifyReplayStep(w, plan, st, r))
  {
    hide Inv, Later, Lands, Seen, DriveOk, Committed, SagaOk;
    SagaIn(w, plan, st);
    ReplayMeans(w, plan, st);
    if st != EffectApplied {
      StaysDriving(w, DriveLocal(plan, st, r));
    } else {
      match AdvanceSaga(w.t, plan.key, EffectApplied, ReadbackVerified)
      case Err(x) => Fails(w, x);
      case Ok(a) =>
        AdvanceKeeps(w, plan.key, EffectApplied, ReadbackVerified);
        var w' := w.(t := a.0);
        InvRows(w');
        DriveOkLater(w, w', plan, st);
        DriveOkAt(w', plan, st, ReadbackVerified);
        CommittedLater(w, w', plan);
        SeenLater(w, w', r);
        LandsDriving(w, w', DriveLocal(plan, a.1, r));
    }
  }

  lemma ReadSagaLands(w: World, cmd: CheckpointCmd, b: Binding)
    requires Inv(w) && WorkerSeen(w, cmd, b)
    ensures Lands(w, ReadSagaStep(w, cmd, b))
  {
    hide Inv, Lands, Seen, DriveOk;
    if cmd.key in w.t.sagas && w.t.sagas[cmd.key].binding == b.id
       && w.t.sagas[cmd.key].fingerprint == FingerprintOf(CheckpointPlanOf(cmd, b)) {
      CheckpointDriveOk(w, cmd, b);
    }
    Stays(w, ReadSagaStep(w, cmd, b).1);
  }

  lemma ReserveLeaseLands(w: World, cmd: CheckpointCmd, b: Binding)
    requires Inv(w) && WorkerSeen(w, cmd, b)
    ensures Lands(w, ReserveLeaseStep(w, cmd, b))
  {
    hide Inv, Later, Lands, Seen, LeaseTaken, Reserve;
    var use := CheckpointUse(b.id, b.checkpointVersion + 1);
    match Reserve(w.leases, cmd.authority.leaseId, cmd.key, use)
    case Err(e) => Fails(w, e);
    case Ok(ls) =>
      ReserveKeeps(w, cmd.authority.leaseId, cmd.key, use);
      SeenLater(w, w.(leases := ls), b);
      Goes(w, w.(leases := ls), Checkpoint(Begin(cmd, b)));
  }

  lemma BeginKeeps(w: World, key: Key, s: Saga)
    requires Inv(w) && BeginSaga(w.t, key, s).Ok? && s.state == LeaseReserved
    requires s.binding in w.t.bindings ==> SagaOk(w, key, s)
    ensures var r := BeginSaga(w.t, key, s).value;
            var w' := w.(t := r.0);
            && Inv(w') && Later(w, w') && key in w'.t.sagas
            && w'.t.sagas[key].(state := LeaseReserved) == s && w'.t.sagas[key].state == r.1
  {
    hide Inv, SagaOk, Later;
    if key !in w.t.sagas {
      SagaWriteKeeps(w, key, s);
    } else {
      LaterRefl(w);
    }
  }

  lemma CheckpointSagaMeans(w: World, cmd: CheckpointCmd, b: Binding)
    requires WorkerSeen(w, cmd, b) && LeaseTaken(w, cmd.authority.leaseId)
    ensures SagaOk(w, cmd.key, SagaRow(CheckpointPlanOf(cmd, b)))
  {
    hide Written, ReplacementWritten, HasSuccessor, CheckpointJournaled;
  }

  lemma BeginLands(w: World, cmd: CheckpointCmd, b: Binding)
    requires Inv(w) && WorkerSeen(w, cmd, b) && LeaseTaken(w, cmd.authority.leaseId)
    ensures Lands(w, BeginStep(w, cmd, b))
  {
    hide Inv, Later, Lands, Seen, DriveOk, SagaOk, LeaseTaken;
    var plan := CheckpointPlanOf(cmd, b);
    CheckpointSagaMeans(w, cmd, b);
    match BeginSaga(w.t, cmd.key, SagaRow(plan))
    case Err(e) => Fails(w, e);
    case Ok(a) =>
      BeginKeeps(w, cmd.key, SagaRow(plan));
      var w' := w.(t := a.0);
      SeenLater(w, w', b);
      CheckpointDriveOk(w', cmd, b);
      LandsDriving(w, w', DriveRecover(plan, a.1));
  }

  lemma CheckpointLands(w: World, pc: CheckpointPc)
    requires Inv(w) && CheckpointInv(w, pc)
    ensures Lands(w, StepCheckpoint(w, pc))
  {
    hide Inv, Lands, WorkerSeen, Seen, ExpectedOk, DriveOk, PlanOk, Committed, LeaseTaken, LeaseValid;
    hide ReadBindingStep, ReadReplayStep, ReadReplaySagaStep, VerifyReplayStep, ReadSagaStep, ReserveLeaseStep, BeginStep;
    match pc
    case ReadBinding(cmd) => ReadBindingLands(w, cmd);
    case ReadReplay(cmd, b) => ReadReplayLands(w, cmd, b);
    case ReadReplaySaga(plan, r) => ReadReplaySagaLands(w, plan, r);
    case VerifyReplay(plan, st, r) => VerifyReplayLands(w, plan, st, r);
    case ReadSaga(cmd, b) => ReadSagaLands(w, cmd, b);
    case ValidateLease(cmd, b) => Stays(w, StepCheckpoint(w, pc).1);
    case ReserveLease(cmd, b) => ReserveLeaseLands(w, cmd, b);
    case Begin(cmd, b) => BeginLands(w, cmd, b);
  }

  // ---------------------------------------------------------------- replace_instance

  lemma ReadPreviousLands(w: World, cmd: ReplaceCmd)
    requires Inv(w)
    ensures Lands(w, ReadPreviousStep(w, cmd))
  {
    hide Inv, Lands, Seen, Complete;
    if cmd.binding in w.t.bindings {
      SeenRow(w, cmd.binding);
    }
    Stays(w, ReadPreviousStep(w, cmd).1);
  }

  lemma ReadExistingLands(w: World, cmd: ReplaceCmd, p: Binding)
    requires Inv(w) && Seen(w, p) && p.id == cmd.binding
    ensures Lands(w, ReadExistingStep(w, cmd, p))
  {
    hide Inv, Lands, Seen, BootstrapOf, Rows;
    InvRows(w);
    ExistingRow(w.t.bindings, cmd.request.key);
    var found := ByIdempotency(w.t.bindings, cmd.request.key);
    if found.Some? {
      SeenRow(w, found.value.id);
    }
    Stays(w, ReadExistingStep(w, cmd, p).1);
  }

  /** A saga with a replacement fingerprint is a replacement saga. */
  lemma ReplacementSagaSeen(w: World, cmd: ReplaceCmd, p: Binding)
    requires Inv(w) && cmd.key in w.t.sagas
    requires w.t.sagas[cmd.key].binding == p.id && w.t.sagas[cmd.key].fingerprint == ReplacementFingerprintOf(cmd, p)
    ensures SagaSeen(w, cmd.key, ReplacementSaga, p.id, cmd.request.leaseId, w.t.sagas[cmd.key].state)
  {
    hide Inv, SagaEffect, SagaRows, SagaJournal, SagaLease;
    SagaFact(w, cmd.key);
  }

  lemma ReadReplacementSagaLands(w: World, cmd: ReplaceCmd, p: Binding)
    requires Inv(w) && PreviousSeen(w, cmd, p)
    ensures Lands(w, ReadReplacementSagaStep(w, cmd, p))
  {
    hide Inv, Lands, PreviousSeen, SagaSeen;
    if cmd.key in w.t.sagas && w.t.sagas[cmd.key].binding == p.id
       && w.t.sagas[cmd.key].fingerprint == ReplacementFingerprintOf(cmd, p) {
      ReplacementSagaSeen(w, cmd, p);
    }
    Stays(w, ReadReplacementSagaStep(w, cmd, p).1);
  }

  lemma ReserveReplacementLands(w: World, cmd: ReplaceCmd, p: Binding, prior: HazelEvent)
    requires Inv(w) && PreviousSeen(w, cmd, p)
    ensures Lands(w, ReserveReplacementStep(w, cmd, p, prior))
  {
    hide Inv, Later, Lands, Seen, LeaseTaken, Reserve;
    var use := BindUse(BindingOf(cmd.request));
    match Reserve(w.leases, cmd.request.leaseId, cmd.request.key, use)
    case Err(e) => Fails(w, e);
    case Ok(ls) =>
      ReserveKeeps(w, cmd.request.leaseId, cmd.request.key, use);
      SeenLater(w, w.(leases := ls), p);
      Goes(w, w.(leases := ls), Replace(BeginReplacement(cmd, p, prior)));
  }

  lemma ReplacementSagaMeans(w: World, cmd: ReplaceCmd, p: Binding)
    requires PreviousSeen(w, cmd, p) && LeaseTaken(w, cmd.request.leaseId)
    ensures SagaOk(w, cmd.key, ReplacementRow(cmd, p))
  {
    hide Written, ReplacementWritten, HasSuccessor, CheckpointJournaled;
  }

  lemma BeginReplacementLands(w: World, cmd: ReplaceCmd, p: Binding, prior: HazelEvent)
    requires Inv(w) && PreviousSeen(w, cmd, p) && LeaseTaken(w, cmd.request.leaseId)
    ensures Lands(w, BeginReplacementStep(w, cmd, p, prior))
  {
    hide Inv, Later, Lands, Seen, SagaOk, LeaseTaken, SagaSeen;
    ReplacementSagaMeans(w, cmd, p);
    match BeginSaga(w.t, cmd.key, ReplacementRow(cmd, p))
    case Err(e) => Fails(w, e);
    case Ok(a) =>
      BeginKeeps(w, cmd.key, ReplacementRow(cmd, p));
      var w' := w.(t := a.0);
      SeenLater(w, w', p);
      ReplacementSagaSeen(w', cmd, p);
      Goes(w, w', Replace(CreateSuccessor(cmd, p, prior, a.1)));
  }

  // ---------------------------------------------------------------- nothing is its own cause

  /** How many causes an id or an event digests, one inside the other. */
  function RequestDepth(r: Request): nat {
    match r.causation
    case None => 0
    case Some(h) => 1 + EventDepth(h.event)
  }

  function EventDepth(e: HazelEvent): nat {
    var named := RequestDepth(e.payload.binding.request);
    match e.predecessor
    case None => 1 + named
    case Some(h) => 1 + named + EventDepth(h.event)
  }

  lemma {:induction false} LogDepth(w: World, l: Lineage, i: nat)
    requires Inv(w) && i < |Run(w.hazel, l)|
    ensures EventDepth(Run(w.hazel, l)[0]) <= EventDepth(Run(w.hazel, l)[i])
  {
    hide Inv, RequestDepth;
    var log := Run(w.hazel, l);
    if i > 0 {
      LogDepth(w, l, i - 1);
      LogLink(w, l, i);
    }
  }

  lemma HazelLink(bs: map<BindingId, Binding>, h: Logs, l: Lineage, i: nat)
    requires HazelOk(bs, h) && 0 < i < |Run(h, l)|
    ensures Run(h, l)[i].predecessor == Some(Sha(Run(h, l)[i - 1]))
  {
    hide Named, Backed;
    var log := Run(h, l);
    assert LogOk(l, log);
    assert Last(log[..i]) == log[i - 1];
  }

  lemma LogLink(w: World, l: Lineage, i: nat)
    requires Inv(w) && 0 < i < |Run(w.hazel, l)|
    ensures Run(w.hazel, l)[i].predecessor == Some(Sha(Run(w.hazel, l)[i - 1]))
  {
    hide Inv, HazelOk;
    InvHazel(w);
    HazelLink(w.t.bindings, w.hazel, l, i);
  }

  /** The first event of a run names its root, which cannot quote a later event of the run. */
  lemma RootIsNotCaused(w: World, id: BindingId, e: HazelEvent)
    requires Inv(w) && id in w.t.bindings && InLog(w.hazel, e) && e.run == w.t.bindings[id].lineage
    requires w.t.bindings[id].request.causation == Some(Sha(e))
    ensures w.t.bindings[id].predecessor.Some?
  {
    hide Inv, BackedOk;
    var log := Run(w.hazel, e.run);
    LogFact(w, e.run, 0);
    LogDepth(w, e.run, e.version - 1);
    RowFact(w, id);
    var root := log[0].payload.binding;
    RowFact(w, root);
    if w.t.bindings[id].predecessor.None? {
      SameGeneration(w, id, root);
    }
  }

  lemma SameGeneration(w: World, i: BindingId, j: BindingId)
    requires Inv(w) && i in w.t.bindings && j in w.t.bindings
    requires w.t.bindings[i].lineage == w.t.bindings[j].lineage && w.t.bindings[i].generation == w.t.bindings[j].generation
    ensures i == j
  {
    hide LeasesOk, HazelOk, JournalOk, SagasOk, RecentOk, Driven, Rows, UniqueKeys, Linked, Continued;
  }

  /** Whichever row holds the request succeeds the binding that caused it. */
  lemma CausePrecedes(w: World, s: Binding, p: Binding)
    requires Inv(w) && IsRow(w.t.bindings, s) && Seen(w, p) && p.status != Prepared
    requires s.request.causation == p.eventHash && s.lineage == p.lineage
    ensures s.predecessor == Some(p.id)
  {
    hide Inv, BackedOk, RowLater;
    var e := p.eventHash.value.event;
    RootIsNotCaused(w, s.id, e);
    RowFact(w, s.id);
  }

  // ---------------------------------------------------------------- the successor

  lemma SuccessorMay(w: World, cmd: ReplaceCmd, p: Binding, authorityRef: string)
    requires Inv(w) && PreviousSeen(w, cmd, p)
    ensures MayCreate(w.t.bindings, SuccessorBinding(p, cmd.request, authorityRef, cmd.now))
  {
    hide Inv, RowLater;
  }

  lemma SuccessorPlanOk(w: World, cmd: ReplaceCmd, p: Binding, s: Binding, prior: HazelEvent)
    requires Inv(w) && PreviousSeen(w, cmd, p) && IsRow(w.t.bindings, s) && s.request == cmd.request
    ensures PlanOk(w, ReplacePlanOf(cmd, p, s, prior))
  {
    hide Inv, LinkOk, BackedOk, CarriedPayload;
    SeenRow(w, s.id);
    RowFact(w, s.id);
    CausePrecedes(w, s, p);
  }

  lemma SuccessorDriveOk(w: World, cmd: ReplaceCmd, p: Binding, s: Binding, prior: HazelEvent, st: SagaState)
    requires Inv(w) && PreviousSeen(w, cmd, p) && IsRow(w.t.bindings, s) && s.request == cmd.request
    requires SagaSeen(w, cmd.key, ReplacementSaga, p.id, cmd.request.leaseId, st)
    ensures DriveOk(w, ReplacePlanOf(cmd, p, s, prior), st)
  {
    hide Inv, PreviousSeen, IsRow, PlanOk, SagaSeen, CarriedPayload;
    SuccessorPlanOk(w, cmd, p, s, prior);
  }

  lemma CreateSuccessorLands(w: World, cmd: ReplaceCmd, p: Binding, prior: HazelEvent, st: SagaState)
    requires Inv(w) && ReplaceInv(w, CreateSuccessor(cmd, p, prior, st))
    ensures Lands(w, CreateSuccessorStep(w, cmd, p, prior, st))
  {
    hide Inv, Later, Lands, Create, Seen, SagaSeen, MayCreate, DriveOk, IsRow, ReplacePlanOf, SuccessorBinding;
    if cmd.request.leaseId in w.leases {
      var b := SuccessorBinding(p, cmd.request, w.leases[cmd.request.leaseId].authorityRef, cmd.now);
      SuccessorMay(w, cmd, p, w.leases[cmd.request.leaseId].authorityRef);
      SuccessorRequest(p, cmd.request, w.leases[cmd.request.leaseId].authorityRef, cmd.now);
      match Create(w.t, b)
      case Err(e) => Fails(w, e);
      case Ok(r) =>
        CreateKeeps(w, b);
        var w' := w.(t := r.0);
        SeenLater(w, w', p);
        SagaSeenLater(w, w', cmd.key, ReplacementSaga, p.id, cmd.request.leaseId, st);
        SuccessorDriveOk(w', cmd, p, r.1, prior, st);
        LandsDriving(w, w', DriveRecover(ReplacePlanOf(cmd, p, r.1, prior), st));
    } else {
      Fails(w, LeaseUnknown);
    }
  }

  lemma SuccessorRequest(p: Binding, r: Request, authorityRef: string, now: int)
    ensures SuccessorBinding(p, r, authorityRef, now).request == r
  {
  }

  lemma FinishDoneSagaLands(w: World, cmd: ReplaceCmd, s: Binding)
    requires Inv(w) && Seen(w, s)
    ensures Lands(w, FinishDoneSagaStep(w, cmd, s))
  {
    hide Inv, Later, Lands, Seen, SagaOk;
    match AdvanceSaga(w.t, cmd.key, LocalCommitted, LeaseFinalized)
    case Err(x) => Fails(w, x);
    case Ok(a) =>
      FinalMeans(w, cmd.key);
      AdvanceKeeps(w, cmd.key, LocalCommitted, LeaseFinalized);
      SeenLater(w, w.(t := a.0), s);
      LandsDone(w, w.(t := a.0), s);
  }

  lemma ReplaceLands(w: World, pc: ReplacePc)
    requires Inv(w) && ReplaceInv(w, pc)
    ensures Lands(w, StepReplace(w, pc))
  {
    hide Inv, Lands, Seen, PreviousSeen, SagaSeen, LeaseTaken, LeaseSettled, LeaseValid;
    hide ReadPreviousStep, ReadExistingStep, ReadReplacementSagaStep, ReserveReplacementStep, BeginReplacementStep,
         CreateSuccessorStep, FinishDoneSagaStep;
    match pc
    case ReadPrevious(cmd) => ReadPreviousLands(w, cmd);
    case ReadExisting(cmd, p) => ReadExistingLands(w, cmd, p);
    case ReadReplacementSaga(cmd, p) => ReadReplacementSagaLands(w, cmd, p);
    case ValidateReplacement(cmd, p) => Stays(w, StepReplace(w, pc).1);
    case ReadPrior(cmd, p, seen) => Stays(w, ReadPriorStep(w, cmd, p, seen).1);
    case ReserveReplacement(cmd, p, prior) => ReserveReplacementLands(w, cmd, p, prior);
    case BeginReplacement(cmd, p, prior) => BeginReplacementLands(w, cmd, p, prior);
    case CreateSuccessor(cmd, p, prior, st) => CreateSuccessorLands(w, cmd, p, prior, st);
    case ReadDoneSaga(cmd, s) => Stays(w, StepReplace(w, pc).1);
    case FinishDoneSaga(cmd, s) => FinishDoneSagaLands(w, cmd, s);
  }

  // ---------------------------------------------------------------- recovery

  lemma LatestSeen(w: World, l: Lineage)
    requires Inv(w)
    ensures LatestBinding(w.t.bindings, l).Some? ==> Seen(w, LatestBinding(w.t.bindings, l).value)
  {
    hide Inv, Seen, IsLatestGeneration;
    var b := LatestBinding(w.t.bindings, l);
    if b.Some? {
      var id :| id in w.t.bindings && w.t.bindings[id] == b.value;
      SeenRow(w, id);
    }
  }

  lemma PredecessorPair(w: World, s: Binding)
    requires Inv(w) && Seen(w, s) && s.predecessor.Some?
    ensures s.predecessor.value in w.t.bindings
    ensures PairOk(w, w.t.bindings[s.predecessor.value], s, s.leaseId)
  {
    hide Inv, BackedOk, InLog, SnapshotOk;
    RowFact(w, s.id);
    SeenRow(w, s.predecessor.value);
  }

  lemma ReadPredecessorLands(w: World, s: Binding)
    requires Inv(w) && Seen(w, s)
    ensures Lands(w, ReadPredecessorStep(w, s))
  {
    hide Inv, Lands, Seen, PairOk;
    if s.predecessor.Some? {
      PredecessorPair(w, s);
    }
    Stays(w, ReadPredecessorStep(w, s).1);
  }

  lemma ReadRecentSagaLands(w: World, p: Binding, s: Binding)
    requires Inv(w) && PairOk(w, p, s, s.leaseId)
    ensures Lands(w, ReadRecentSagaStep(w, p, s))
  {
    hide Inv, Lands, PairOk;
    if p.id in w.t.recent {
      RecentFact(w, p.id);
    }
    Stays(w, ReadRecentSagaStep(w, p, s).1);
  }

  lemma ReadLatestLands(w: World, l: Lineage)
    requires Inv(w)
    ensures Lands(w, ReadLatestStep(w, l))
  {
    hide Inv, Lands, Seen, LatestBinding, LocalIdentity;
    LatestSeen(w, l);
    Stays(w, ReadLatestStep(w, l).1);
  }

  lemma RecoverLands(w: World, pc: RecoverPc)
    requires Inv(w) && RecoverInv(w, pc)
    ensures Lands(w, StepRecover(w, pc))
  {
    hide Inv, Lands, Seen, PairOk, SingleActive, Faithful, IsReplacementOf;
    hide ReadLatestStep, ReadPredecessorStep, ReadRecentSagaStep;
    match pc
    case ReadLatest(l) => ReadLatestLands(w, l);
    case CountActive(b) => Stays(w, CountActiveStep(w, b).1);
    case ReadStranded(b) => Stays(w, ReadStrandedStep(w, b).1);
    case ReadPredecessor(s) => ReadPredecessorLands(w, s);
    case ReadRecentSaga(p, s) => ReadRecentSagaLands(w, p, s);
    case Fidelity(b) => Stays(w, FidelityStep(w, b).1);
    case FidelityPredecessor(b, e) => Stays(w, FidelityPredecessorStep(w, b, e).1);
  }

  // ---------------------------------------------------------------- all calls

  /** The step theorem: any step of any call, in any world that satisfies the invariant. */
  lemma StepLands(w: World, pc: Pc)
    requires Inv(w) && CallInv(w, pc)
    ensures Lands(w, Step(w, pc))
  {
    hide Inv, Lands, PrepareInv, BridgeInv, ReconcileInv, CheckpointInv, ReplaceInv, RecoverInv, DriveInv, Seen;
    hide StepPrepare, StepBridge, StepReconcile, StepCheckpoint, StepReplace, StepRecover, StepDrive;
    match pc
    case Prepare(p) => PrepareLands(w, p);
    case Bridge(p) => BridgeLands(w, p);
    case Reconcile(p) => ReconcileLands(w, p);
    case Checkpoint(p) => CheckpointLands(w, p);
    case Replace(p) => ReplaceLands(w, p);
    case Recover(p) => RecoverLands(w, p);
    case Drive(p) => DriveLands(w, p);
    case Done(o) => Stays(w, pc);
  }

  // ---------------------------------------------------------------- what a stale or future version does

  /**
   A checkpoint commit that goes through extends the committed checkpoint by one
   exactly when the caller quoted the version its call had read; otherwise a
   committed checkpoint is overwritten by an older one.
   */
  lemma CheckpointExtendsExactlyWhen(w: World, plan: Plan, e: HazelEvent)
    requires Inv(w) && plan.CheckpointPlan? && Seen(w, plan.b) && plan.b.status in {Active, Checkpointed}
    requires InstanceTables.Lookup(w.t.journal, plan.key).None? && Transition(w.t, CheckpointArgs(plan, e)).Ok?
    ensures var row := w.t.bindings[plan.b.id];
            var row' := Transition(w.t, CheckpointArgs(plan, e)).value.1;
            && (row'.checkpointVersion == row.checkpointVersion + 1 <==> plan.expected == plan.b.version)
            && (plan.expected != plan.b.version ==> row'.checkpointVersion <= row.checkpointVersion)
  {
    hide Inv, InLog, PlatformTaken;
    assert RowLater(plan.b, w.t.bindings[plan.b.id]);
  }

  /** An acknowledgement that goes through finds a BOUND row exactly when the caller quoted the version it had read. */
  lemma AckActivatesExactlyWhen(w: World, a: Ack, b: Binding)
    requires Inv(w) && Seen(w, b) && b.id == a.binding && b.status == Bound
    requires InstanceTables.Lookup(w.t.journal, a.key).None? && Transition(w.t, AckArgs(a)).Ok?
    ensures w.t.bindings[b.id].status == Bound <==> a.expected == b.version
  {
    hide Inv, InLog, PlatformTaken;
    assert RowLater(b, w.t.bindings[b.id]);
  }
}
