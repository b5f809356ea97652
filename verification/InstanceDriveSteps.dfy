/**
 Every step of the saga driver keeps the invariant, moves the world forward
 only, and leaves the call with the facts its next step relies on.
 */
module InstanceDriveSteps {
  import opened Prelude
  import opened InstanceContracts
  import opened InstanceTables
  import opened InstanceEffects
  import opened InstanceProtocol
  import opened InstanceChain
  import opened InstanceInvariant
  import opened InstanceCalls

  ghost predicate Lands(w: World, r: (World, Pc)) {
    Inv(r.0) && Later(w, r.0) && CallInv(r.0, r.1)
  }

  /** A step that only reads. */
  lemma Stays(w: World, pc: Pc)
    requires Inv(w) && CallInv(w, pc)
    ensures Lands(w, (w, pc))
  {
    hide Inv, CallInv, Later;
    LaterRefl(w);
  }

  lemma Fails(w: World, error: Error)
    requires Inv(w)
    ensures Lands(w, (w, Fail(error)))
  {
    Stays(w, Fail(error));
  }

  lemma StaysDriving(w: World, pc: DrivePc)
    requires Inv(w) && DriveInv(w, pc)
    ensures Lands(w, (w, Drive(pc)))
  {
    hide Inv, DriveInv;
    Stays(w, Drive(pc));
  }

  lemma LandsDriving(w: World, w': World, pc: DrivePc)
    requires Inv(w') && Later(w, w') && DriveInv(w', pc)
    ensures Lands(w, (w', Drive(pc)))
  {
    hide Inv, Later, DriveInv;
  }

  lemma LandsDone(w: World, w': World, b: Binding)
    requires Inv(w') && Later(w, w') && Seen(w', b)
    ensures Lands(w, (w', Done(Returned(b))))
  {
    hide Inv, Later, Seen;
  }

  // ---------------------------------------------------------------- the saga driver

  lemma AdvanceKeeps(w: World, key: Key, from: SagaState, to: SagaState)
    requires Inv(w) && AdvanceSaga(w.t, key, from, to).Ok? && Rank(from) <= Rank(to)
    requires key in w.t.sagas && w.t.sagas[key].state == from ==> SagaOk(w, key, w.t.sagas[key].(state := to))
    ensures var r := AdvanceSaga(w.t, key, from, to).value;
            var w' := w.(t := r.0);
            && Inv(w') && Later(w, w') && r.1 == to
            && key in w'.t.sagas && w'.t.sagas[key].state == to
  {
    hide Inv, SagaOk, Later;
    if w.t.sagas[key].state == from {
      SagaWriteKeeps(w, key, w.t.sagas[key].(state := to));
    } else {
      LaterRefl(w);
    }
  }

  lemma SeenIdentity(w: World, b: Binding)
    requires Seen(w, b)
    ensures b.id in w.t.bindings && SameIdentity(b, w.t.bindings[b.id]) && LineageOf(b.id) == b.lineage
  {
    hide InLog;
  }

  lemma EffectMeans(w: World, plan: Plan, st: SagaState, e: HazelEvent)
    requires Inv(w) && DriveOk(w, plan, st) && Adopted(w, plan, e)
    ensures w.t.sagas[plan.key].state == LeaseReserved ==>
              SagaOk(w, plan.key, w.t.sagas[plan.key].(state := EffectApplied))
  {
    hide Inv, Seen, InLog, CheckpointJournaled;
    SagaFact(w, plan.key);
    if plan.CheckpointPlan? {
      SeenIdentity(w, plan.b);
    } else {
      SeenIdentity(w, plan.s);
    }
  }

  lemma ReadbackMeans(w: World, plan: Plan, st: SagaState, e: HazelEvent)
    requires Inv(w) && DriveOk(w, plan, st) && Verified(w, plan, e)
    ensures w.t.sagas[plan.key].state == EffectApplied ==>
              SagaOk(w, plan.key, w.t.sagas[plan.key].(state := ReadbackVerified))
  {
    hide Inv, Seen, InLog, CheckpointJournaled;
    SagaFact(w, plan.key);
    if !plan.CheckpointPlan? {
      SeenIdentity(w, plan.p);
    }
  }

  lemma CommitMeans(w: World, plan: Plan, st: SagaState)
    requires Inv(w) && DriveOk(w, plan, st) && Committed(w, plan)
    ensures w.t.sagas[plan.key].state == ReadbackVerified ==>
              SagaOk(w, plan.key, w.t.sagas[plan.key].(state := LocalCommitted))
  {
    hide Inv, Seen, InLog, CheckpointJournaled;
    SagaFact(w, plan.key);
  }

  lemma FinalMeans(w: World, key: Key)
    requires Inv(w) && key in w.t.sagas
    ensures w.t.sagas[key].state == LocalCommitted ==>
              SagaOk(w, key, w.t.sagas[key].(state := LeaseFinalized))
  {
    hide Inv, Written, ReplacementWritten, HasSuccessor, CheckpointJournaled;
    SagaFact(w, key);
  }

  /** A replayed checkpoint saga that had stopped at EFFECT_APPLIED is verified by its journal row. */
  lemma ReplayMeans(w: World, plan: Plan, st: SagaState)
    requires Inv(w) && plan.CheckpointPlan? && DriveOk(w, plan, st)
    ensures w.t.sagas[plan.key].state == EffectApplied ==>
              SagaOk(w, plan.key, w.t.sagas[plan.key].(state := ReadbackVerified))
  {
    hide Inv, Seen, InLog, CheckpointJournaled;
    SagaFact(w, plan.key);
  }

  /** The driver's saga can be found further on, never further back. */
  lemma DriveOkAt(w: World, plan: Plan, st: SagaState, st': SagaState)
    requires DriveOk(w, plan, st) && Rank(st') <= Rank(w.t.sagas[plan.key].state)
    ensures DriveOk(w, plan, st')
  {
    hide PlanOk;
  }

  lemma RecoveredLands(w: World, plan: Plan, st: SagaState)
    requires Inv(w) && DriveOk(w, plan, st)
    ensures Lands(w, Recovered(w, plan, st))
  {
    hide Inv, DriveOk, InLog, Lands;
    var log := Run(w.hazel, Base(plan).lineage);
    if log == [] {
      Fails(w, HazelMissing);
    } else {
      LastFact(w, Base(plan).lineage);
      match Recovered(w, plan, st).1
      case Done(o) => Fails(w, o.error);
      case Drive(pc) => StaysDriving(w, pc);
    }
  }

  /** The guard of the Hazel write that a plan makes. */
  lemma PlanMayPersist(w: World, plan: Plan, st: SagaState, payload: Payload)
    requires Inv(w) && DriveOk(w, plan, st) && PayloadOk(plan, payload)
    ensures MayPersist(w.t.bindings, PlannedEvent(plan, payload), Base(plan).id)
  {
    hide Inv, InLog;
    if !plan.CheckpointPlan? {
      assert RowLater(plan.p, w.t.bindings[plan.p.id]) && RowLater(plan.s, w.t.bindings[plan.s.id]);
    } else {
      assert RowLater(plan.b, w.t.bindings[plan.b.id]);
    }
  }

  lemma PersistLands(w: World, plan: Plan, st: SagaState, payload: Payload)
    requires Inv(w) && DriveOk(w, plan, st) && PayloadOk(plan, payload)
    ensures Lands(w, PersistStep(w, plan, st, payload))
  {
    hide Inv, Later, DriveOk, MayPersist, PlanOk, InLog, Accepts, Lands;
    var e := PlannedEvent(plan, payload);
    PlanMayPersist(w, plan, st, payload);
    match Persist(w.hazel, e)
    case Err(x) => Fails(w, x);
    case Ok(h) =>
      HazelWriteKeeps(w, e, Base(plan).id);
      DriveOkLater(w, w.(hazel := h), plan, st);
      LandsDriving(w, w.(hazel := h), DriveEffect(plan, st, e));
  }

  lemma EffectLands(w: World, plan: Plan, st: SagaState, e: HazelEvent)
    requires Inv(w) && DriveOk(w, plan, st) && Adopted(w, plan, e)
    ensures Lands(w, EffectStep(w, plan, st, e))
  {
    hide Inv, Later, DriveOk, Adopted, SagaOk, Lands;
    EffectMeans(w, plan, st, e);
    SagaIn(w, plan, st);
    if st != LeaseReserved {
      StaysDriving(w, DriveReadback(plan, st, e));
    } else {
      match AdvanceSaga(w.t, plan.key, LeaseReserved, EffectApplied)
      case Err(x) => Fails(w, x);
      case Ok(a) =>
        AdvanceKeeps(w, plan.key, LeaseReserved, EffectApplied);
        var w' := w.(t := a.0);
        DriveOkLater(w, w', plan, st);
        AdoptedLater(w, w', plan, e);
        DriveOkAt(w', plan, st, EffectApplied);
        LandsDriving(w, w', DriveReadback(plan, a.1, e));
    }
  }

  lemma SagaIn(w: World, plan: Plan, st: SagaState)
    requires DriveOk(w, plan, st)
    ensures plan.key in w.t.sagas && Rank(st) <= Rank(w.t.sagas[plan.key].state)
  {
    hide PlanOk;
  }

  lemma ReadbackLands(w: World, plan: Plan, st: SagaState, e: HazelEvent)
    requires Inv(w) && DriveOk(w, plan, st) && Adopted(w, plan, e)
    ensures Lands(w, ReadbackStep(w, plan, st, e))
  {
    hide Inv, DriveOk, InLog, Lands;
    match ReadbackStep(w, plan, st, e).1
    case Done(o) => Fails(w, o.error);
    case Drive(pc) => StaysDriving(w, pc);
  }

  lemma AfterVerifyInv(w: World, plan: Plan, st: SagaState, e: HazelEvent)
    requires DriveOk(w, plan, st) && Verified(w, plan, e)
    ensures AfterVerify(plan, st, e).Drive? && DriveInv(w, AfterVerify(plan, st, e).drive)
  {
    hide DriveOk, Verified;
    DriveOkAt(w, plan, st, LeaseReserved);
  }

  lemma VerifyLands(w: World, plan: Plan, st: SagaState, e: HazelEvent)
    requires Inv(w) && DriveOk(w, plan, st) && Verified(w, plan, e)
    ensures Lands(w, VerifyStep(w, plan, st, e))
  {
    hide Inv, Later, DriveOk, Verified, SagaOk, Lands, AfterVerify, DriveInv;
    ReadbackMeans(w, plan, st, e);
    SagaIn(w, plan, st);
    if st != EffectApplied {
      AfterVerifyInv(w, plan, st, e);
      StaysDriving(w, AfterVerify(plan, st, e).drive);
    } else {
      match AdvanceSaga(w.t, plan.key, EffectApplied, ReadbackVerified)
      case Err(x) => Fails(w, x);
      case Ok(a) =>
        AdvanceKeeps(w, plan.key, EffectApplied, ReadbackVerified);
        var w' := w.(t := a.0);
        DriveOkLater(w, w', plan, st);
        AdoptedLater(w, w', plan, e);
        DriveOkAt(w', plan, st, ReadbackVerified);
        AfterVerifyInv(w', plan, ReadbackVerified, e);
        LandsDriving(w, w', AfterVerify(plan, a.1, e).drive);
    }
  }

  /** A checkpoint commit that goes through finds the very row it started from. */
  lemma CheckpointMay(w: World, plan: Plan, st: SagaState, e: HazelEvent)
    requires Inv(w) && plan.CheckpointPlan? && DriveOk(w, plan, st) && Verified(w, plan, e)
    ensures MayTransition(w, CheckpointArgs(plan, e))
  {
    hide Inv, LinkOk, NamesOk;
    var b := w.t.bindings[plan.b.id];
    RowFact(w, plan.b.id);
    assert RowLater(plan.b, b);
    EventFact(w, e);
    if plan.expected == b.version {
      NoReplacementYet(w, b, e);
    }
  }

  /** The holder's next event is a checkpoint, so nothing has replaced it. */
  lemma NoReplacementYet(w: World, b: Binding, e: HazelEvent)
    requires Inv(w) && b.id in w.t.bindings && w.t.bindings[b.id] == b
    requires InLog(w.hazel, e) && e.run == b.lineage && e.version == b.checkpointVersion + 1 && !e.payload.ReplacementPayload?
    ensures Unreplaced(w.hazel, b.id, b.checkpointVersion + 1)
  {
    hide Inv, NamesOk;
    forall l, i | l in w.hazel && 0 <= i < |w.hazel[l]|
      ensures !(w.hazel[l][i].payload.ReplacementPayload? && w.hazel[l][i].payload.recoveredFrom == b.id)
    {
      NotReplacedBy(w, l, i, b, e);
    }
  }

  lemma NotReplacedBy(w: World, l: Lineage, i: nat, b: Binding, e: HazelEvent)
    requires Inv(w) && b.id in w.t.bindings && w.t.bindings[b.id] == b
    requires InLog(w.hazel, e) && e.run == b.lineage && e.version == b.checkpointVersion + 1 && !e.payload.ReplacementPayload?
    requires i < |Run(w.hazel, l)|
    ensures var x := Run(w.hazel, l)[i]; !(x.payload.ReplacementPayload? && x.payload.recoveredFrom == b.id)
  {
    hide Inv;
    LogFact(w, l, i);
  }

  lemma CheckpointCommitLands(w: World, plan: Plan, st: SagaState, e: HazelEvent)
    requires Inv(w) && plan.CheckpointPlan? && DriveOk(w, plan, st) && Verified(w, plan, e)
    ensures Lands(w, CheckpointCommitStep(w, plan, st, e))
  {
    hide Inv, Later, DriveOk, Verified, MayTransition, Transition, Seen, Lands;
    CheckpointMay(w, plan, st, e);
    var a := CheckpointArgs(plan, e);
    match Transition(w.t, a)
    case Err(x) => Fails(w, x);
    case Ok(r) =>
      TransitionKeeps(w, a);
      DriveOkLater(w, w.(t := r.0), plan, st);
      SeenRow(w.(t := r.0), a.binding);
      LandsDriving(w, w.(t := r.0), DriveLocal(plan, st, r.1));
  }

  lemma PlanCommitFor(w: World, plan: Plan, st: SagaState, e: HazelEvent)
    requires DriveOk(w, plan, st) && !plan.CheckpointPlan? && Verified(w, plan, e)
    ensures IsReplacementEvent(w.hazel, e)
    ensures plan.ReplacePlan? ==> CommitFor(ReplaceArgs(plan, e), e)
    ensures e.payload.binding == plan.s.id && e.payload.recoveredFrom == plan.p.id
  {
    hide InLog, Seen, SagaSeen;
    SeenIdentity(w, plan.p);
  }

  lemma ReplaceCommitLands(w: World, plan: Plan, st: SagaState, e: HazelEvent)
    requires Inv(w) && plan.ReplacePlan? && DriveOk(w, plan, st) && Verified(w, plan, e)
    ensures Lands(w, ReplaceCommitStep(w, plan, st, e))
  {
    hide Inv, Later, DriveOk, Verified, CommitFor, CommitReplacement, Seen, IsReplacementEvent, Lands;
    PlanCommitFor(w, plan, st, e);
    var a := ReplaceArgs(plan, e);
    match CommitReplacement(w.t, a)
    case Err(x) => Fails(w, x);
    case Ok(r) =>
      CommitKeeps(w, a, e);
      DriveOkLater(w, w.(t := r.0), plan, st);
      SeenRow(w.(t := r.0), a.successor);
      LandsDriving(w, w.(t := r.0), DriveLocal(plan, st, r.1));
  }

  lemma CommitLands(w: World, plan: Plan, st: SagaState, e: HazelEvent)
    requires Inv(w) && DriveOk(w, plan, st) && Verified(w, plan, e)
    ensures Lands(w, CommitStep(w, plan, st, e))
  {
    hide Inv, Lands, Verified;
    match plan
    case CheckpointPlan(_, _, _, _, _) => CheckpointCommitLands(w, plan, st, e);
    case ReplacePlan(_, _, _, _, _, _) => ReplaceCommitLands(w, plan, st, e);
    case RecoveryPlan(_, _, _, _) =>
      DriveOkAt(w, plan, st, LeaseReserved);
      StaysDriving(w, Reload(plan, e));
  }

  lemma ReloadLands(w: World, plan: Plan, e: HazelEvent)
    requires Inv(w) && RecoveryOk(w, plan) && Verified(w, plan, e)
    ensures Lands(w, ReloadStep(w, plan, e))
  {
    hide Inv, DriveOk, Verified, Seen, Lands;
    if plan.p.id in w.t.bindings {
      SeenRow(w, plan.p.id);
      StaysDriving(w, ReloadSuccessor(plan, e, w.t.bindings[plan.p.id]));
    } else {
      Fails(w, BindingNotFound);
    }
  }

  lemma ReloadSuccessorLands(w: World, plan: Plan, e: HazelEvent, p: Binding)
    requires Inv(w) && RecoveryOk(w, plan) && Verified(w, plan, e) && RowAgain(w, plan.p.id, p)
    ensures Lands(w, ReloadSuccessorStep(w, plan, e, p))
  {
    hide Inv, DriveOk, Verified, Seen, Lands;
    if plan.s.id in w.t.bindings {
      SeenRow(w, plan.s.id);
      StaysDriving(w, ReloadSuccessorStep(w, plan, e, p).1.drive);
    } else {
      Fails(w, BindingNotFound);
    }
  }

  lemma ConfirmLands(w: World, plan: Plan)
    requires Inv(w) && RecoveryOk(w, plan)
    ensures Lands(w, ConfirmStep(w, plan))
  {
    hide Inv, DriveOk, Seen, Lands;
    if plan.p.id in w.t.bindings {
      SeenRow(w, plan.p.id);
      StaysDriving(w, ConfirmSuccessor(plan, w.t.bindings[plan.p.id]));
    } else {
      Fails(w, BindingNotFound);
    }
  }

  lemma ConfirmSuccessorLands(w: World, plan: Plan, p: Binding)
    requires Inv(w) && RecoveryOk(w, plan) && RowAgain(w, plan.p.id, p)
    ensures Lands(w, ConfirmSuccessorStep(w, plan, p))
  {
    hide Inv, DriveOk, Seen, Lands;
    ReplacedForGood(w, p);
    if plan.s.id in w.t.bindings {
      SeenRow(w, plan.s.id);
    }
    match ConfirmSuccessorStep(w, plan, p).1
    case Done(o) => Fails(w, o.error);
    case Drive(pc) => StaysDriving(w, pc);
  }

  lemma RecoveryCommitFor(w: World, plan: Plan, e: HazelEvent, p: Binding, s: Binding)
    requires RecoveryOk(w, plan) && Verified(w, plan, e) && RowAgain(w, plan.p.id, p) && RowAgain(w, plan.s.id, s)
    ensures IsReplacementEvent(w.hazel, e) && CommitFor(RecoveryArgs(plan, e, p, s), e)
  {
    hide InLog, Seen, DriveOk;
    PlanCommitFor(w, plan, LeaseReserved, e);
  }

  /** A binding once seen REPLACED still is. */
  lemma ReplacedForGood(w: World, p: Binding)
    requires Inv(w) && Seen(w, p)
    ensures p.id in w.t.bindings && (p.status == Replaced ==> w.t.bindings[p.id].status == Replaced)
  {
    hide Inv, InLog, LinkOk, BackedOk;
    RowFact(w, p.id);
  }

  lemma RecoveryCommitLands(w: World, plan: Plan, e: HazelEvent, p: Binding, s: Binding)
    requires Inv(w) && RecoveryOk(w, plan) && Verified(w, plan, e) && RowAgain(w, plan.p.id, p) && RowAgain(w, plan.s.id, s)
    ensures Lands(w, RecoveryCommitStep(w, plan, e, p, s))
  {
    hide Inv, Later, DriveOk, Verified, CommitFor, CommitReplacement, Seen, IsReplacementEvent, Lands;
    RecoveryCommitFor(w, plan, e, p, s);
    var a := RecoveryArgs(plan, e, p, s);
    match CommitReplacement(w.t, a)
    case Err(x) => Fails(w, x);
    case Ok(r) =>
      CommitKeeps(w, a, e);
      DriveOkLater(w, w.(t := r.0), plan, LeaseReserved);
      LandsDriving(w, w.(t := r.0), Confirm(plan));
  }

  lemma ResagaLands(w: World, plan: Plan, s: Binding)
    requires Inv(w) && RecoveryOk(w, plan) && Committed(w, plan) && Seen(w, s)
    ensures Lands(w, ResagaStep(w, plan, s))
  {
    hide Inv, DriveOk, Committed, Seen, Lands;
    SagaIn(w, plan, LeaseReserved);
    DriveOkAt(w, plan, LeaseReserved, w.t.sagas[plan.key].state);
    StaysDriving(w, DriveLocal(plan, w.t.sagas[plan.key].state, s));
  }

  lemma LocalLands(w: World, plan: Plan, st: SagaState, r: Binding)
    requires Inv(w) && DriveOk(w, plan, st) && Committed(w, plan) && Seen(w, r)
    ensures Lands(w, LocalStep(w, plan, st, r))
  {
    hide Inv, Later, DriveOk, SagaOk, Seen, Committed, Lands;
    CommitMeans(w, plan, st);
    SagaIn(w, plan, st);
    if st != ReadbackVerified {
      StaysDriving(w, DriveFinalize(plan, st, r));
    } else {
      match AdvanceSaga(w.t, plan.key, ReadbackVerified, LocalCommitted)
      case Err(x) => Fails(w, x);
      case Ok(a) =>
        AdvanceKeeps(w, plan.key, ReadbackVerified, LocalCommitted);
        var w' := w.(t := a.0);
        InvRows(w');
        DriveOkLater(w, w', plan, st);
        DriveOkAt(w', plan, st, LocalCommitted);
        CommittedLater(w, w', plan);
        SeenLater(w, w', r);
        LandsDriving(w, w', DriveFinalize(plan, a.1, r));
    }
  }

  lemma AfterSagaLands(w: World, w': World, plan: Plan, st: SagaState, r: Binding)
    requires Inv(w') && Later(w, w') && Seen(w', r)
    ensures Lands(w, (w', AfterSaga(plan, st, r)))
  {
    hide Seen, Inv, Later;
  }

  lemma FinalizeLands(w: World, plan: Plan, st: SagaState, r: Binding)
    requires Inv(w) && DriveOk(w, plan, st) && Committed(w, plan) && Seen(w, r)
    ensures Lands(w, FinalizeStep(w, plan, st, r))
  {
    hide Inv, Later, DriveOk, Seen, Committed, AfterSaga, Settled, Lands, LeasesOk, LeasesLater;
    SagaIn(w, plan, st);
    if st != LocalCommitted {
      LaterRefl(w);
      AfterSagaLands(w, w, plan, st, r);
    } else {
      match Finalize(w.leases, LeaseOf(plan))
      case Err(x) => Fails(w, x);
      case Ok(ls) =>
        var w' := w.(leases := ls);
        InvLeases(w);
        FinalizeLater(w.leases, LeaseOf(plan));
        LeaseWriteKeeps(w, ls);
        InvRows(w');
        DriveOkAt(w, plan, st, LeaseReserved);
        DriveOkLater(w, w', plan, LeaseReserved);
        CommittedLater(w, w', plan);
        SeenLater(w, w', r);
        LandsDriving(w, w', DriveFinish(plan, r));
    }
  }

  lemma FinishLands(w: World, plan: Plan, r: Binding)
    requires Inv(w) && DriveOk(w, plan, LeaseReserved) && Seen(w, r)
    ensures Lands(w, FinishStep(w, plan, r))
  {
    hide Inv, Later, DriveOk, SagaOk, Seen, AfterSaga, Lands;
    SagaIn(w, plan, LeaseReserved);
    FinalMeans(w, plan.key);
    match AdvanceSaga(w.t, plan.key, LocalCommitted, LeaseFinalized)
    case Err(x) => Fails(w, x);
    case Ok(a) =>
      AdvanceKeeps(w, plan.key, LocalCommitted, LeaseFinalized);
      SeenLater(w, w.(t := a.0), r);
      AfterSagaLands(w, w.(t := a.0), plan, a.1, r);
  }

  lemma DriveLands(w: World, pc: DrivePc)
    requires Inv(w) && DriveInv(w, pc)
    ensures Lands(w, StepDrive(w, pc))
  {
    hide Inv, DriveOk, Adopted, Verified, Committed, Seen, Lands, PayloadOk, RowAgain, LeaseSettled;
    hide Recovered, PersistStep, EffectStep, ReadbackStep, VerifyStep, CommitStep, ReloadStep, ReloadSuccessorStep,
         RecoveryCommitStep, ConfirmStep, ConfirmSuccessorStep, ResagaStep, LocalStep, FinalizeStep, FinishStep;
    match pc
    case DriveRecover(plan, st) => RecoveredLands(w, plan, st);
    case DrivePersist(plan, st, payload) => PersistLands(w, plan, st, payload);
    case DriveEffect(plan, st, e) => EffectLands(w, plan, st, e);
    case DriveReadback(plan, st, e) => ReadbackLands(w, plan, st, e);
    case DriveVerify(plan, st, e) => VerifyLands(w, plan, st, e);
    case DriveCommit(plan, st, e) => CommitLands(w, plan, st, e);
    case Reload(plan, e) => ReloadLands(w, plan, e);
    case ReloadSuccessor(plan, e, p) => ReloadSuccessorLands(w, plan, e, p);
    case RecoveryCommit(plan, e, p, s) => RecoveryCommitLands(w, plan, e, p, s);
    case Confirm(plan) => ConfirmLands(w, plan);
    case ConfirmSuccessor(plan, p) => ConfirmSuccessorLands(w, plan, p);
    case Resaga(plan, s) => ResagaLands(w, plan, s);
    case DriveLocal(plan, st, r) => LocalLands(w, plan, st, r);
    case DriveFinalize(plan, st, r) => FinalizeLands(w, plan, st, r);
    case DriveFinish(plan, r) => FinishLands(w, plan, r);
  }
}
