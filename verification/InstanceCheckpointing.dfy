/**
 Checkpoint converges: however often a call of checkpoint is cut, and wherever,
 calling it again with the same arguments ends in the world in which the first
 call would have ended, with the same result.
 */
module InstanceCheckpointing {
  import opened Prelude
  import opened InstanceContracts
  import opened InstanceTables
  import opened InstanceEffects
  import opened InstanceProtocol
  import opened InstanceFinish

  function Entry(cmd: CheckpointCmd): Pc {
    Checkpoint(ReadBinding(cmd))
  }

  /** The world after a series of calls, each cut after some number of steps. */
  ghost function Attempts(w: World, cmd: CheckpointCmd, cuts: seq<nat>): World {
    if cuts == [] then w else Cut(Attempts(w, cmd, DropLast(cuts)), Entry(cmd), Last(cuts)).0
  }

  // ---------------------------------------------------------------- what an undisturbed call knows

  /** The row is stored under its own id. */
  ghost predicate Keyed(w: World, id: BindingId) {
    id in w.t.bindings ==> w.t.bindings[id].id == id
  }

  ghost predicate Guarded(w: World, cmd: CheckpointCmd, b: Binding) {
    && cmd.binding in w.t.bindings && w.t.bindings[cmd.binding] == b && b.id == cmd.binding
    && b.status in {Active, Checkpointed}
    && b.platform == Some(cmd.platform) && b.generation == cmd.generation
  }

  ghost predicate Fresh(w: World, cmd: CheckpointCmd, b: Binding) {
    && Guarded(w, cmd, b)
    && InstanceTables.Lookup(w.t.journal, cmd.key).None?
    && cmd.authority.lineage == b.lineage
  }

  ghost predicate Begun(w: World, cmd: CheckpointCmd, b: Binding, st: SagaState) {
    && Fresh(w, cmd, b)
    && cmd.key in w.t.sagas
    && w.t.sagas[cmd.key].binding == b.id
    && w.t.sagas[cmd.key].fingerprint == FingerprintOf(CheckpointPlanOf(cmd, b))
    && w.t.sagas[cmd.key].state == st
    && cmd.authority.leaseId in w.leases
  }

  ghost predicate Replayed(w: World, cmd: CheckpointCmd, b: Binding) {
    && Guarded(w, cmd, b)
    && InstanceTables.Lookup(w.t.journal, cmd.key).Some?
    && SameCheckpoint(InstanceTables.Lookup(w.t.journal, cmd.key).value, b.id, FingerprintOf(CheckpointPlanOf(cmd, b)))
  }

  ghost predicate ReplayedAt(w: World, cmd: CheckpointCmd, b: Binding, st: SagaState) {
    Replayed(w, cmd, b) && cmd.key in w.t.sagas && w.t.sagas[cmd.key].state == st
  }

  ghost predicate Reserved(w: World, cmd: CheckpointCmd, b: Binding) {
    Reserve(w.leases, cmd.authority.leaseId, cmd.key, CheckpointUse(b.id, b.checkpointVersion + 1)) == Ok(w.leases)
  }

  ghost predicate PlanFor(w: World, cmd: CheckpointCmd, plan: Plan, st: SagaState) {
    plan.CheckpointPlan? && plan == CheckpointPlanOf(cmd, plan.b) && Begun(w, cmd, plan.b, st)
  }

  /** Hazel already holds the event the plan is about. */
  ghost predicate Effected(w: World, plan: Plan, st: SagaState, e: HazelEvent) {
    Recovered(w, plan, st) == (w, Drive(DriveEffect(plan, st, e))) && Run(w.hazel, Base(plan).lineage) != []
    && Last(Run(w.hazel, Base(plan).lineage)) == e
  }

  /** All that the closing steps take from a plan. */
  predicate PlanLike(plan: Plan, cmd: CheckpointCmd) {
    plan.CheckpointPlan? && plan.key == cmd.key && plan.authority.leaseId == cmd.authority.leaseId
  }

  ghost predicate ExactCheckpoint(w: World, cmd: CheckpointCmd, pc: CheckpointPc) {
    match pc
    case ReadBinding(c) => c == cmd && Keyed(w, cmd.binding)
    case ReadReplay(c, b) => c == cmd && Guarded(w, cmd, b)
    case ReadReplaySaga(plan, r) => plan == CheckpointPlanOf(cmd, r) && Replayed(w, cmd, r)
    case VerifyReplay(plan, st, r) => plan == CheckpointPlanOf(cmd, r) && ReplayedAt(w, cmd, r, st)
    case ReadSaga(c, b) => c == cmd && Fresh(w, cmd, b)
    case ValidateLease(c, b) => c == cmd && Fresh(w, cmd, b) && cmd.key !in w.t.sagas
    case ReserveLease(c, b) => c == cmd && Fresh(w, cmd, b) && cmd.key !in w.t.sagas && LeaseValid(w, cmd.authority, CheckpointAction)
    case Begin(c, b) => c == cmd && Fresh(w, cmd, b) && cmd.key !in w.t.sagas && LeaseValid(w, cmd.authority, CheckpointAction)
                        && Reserved(w, cmd, b)
  }

  ghost predicate ExactDrive(w: World, cmd: CheckpointCmd, pc: DrivePc) {
    match pc
    case DriveRecover(plan, st) => PlanFor(w, cmd, plan, st)
    case DrivePersist(plan, st, payload) =>
      PlanFor(w, cmd, plan, st) && Recovered(w, plan, st) == (w, Drive(DrivePersist(plan, st, payload)))
    case DriveEffect(plan, st, e) => PlanFor(w, cmd, plan, st) && Effected(w, plan, st, e)
    case DriveReadback(plan, st, e) => PlanFor(w, cmd, plan, st) && Effected(w, plan, st, e) && st != LeaseReserved
    case DriveVerify(plan, st, e) => PlanFor(w, cmd, plan, st) && Effected(w, plan, st, e) && st != LeaseReserved
    case DriveCommit(plan, st, e) =>
      PlanFor(w, cmd, plan, st) && Effected(w, plan, st, e) && st != LeaseReserved && st != EffectApplied
    case DriveLocal(plan, st, r) => PlanLike(plan, cmd) && ReplayedAt(w, cmd, r, st) && st != EffectApplied
    case DriveFinalize(plan, st, r) =>
      PlanLike(plan, cmd) && ReplayedAt(w, cmd, r, st) && st != EffectApplied && st != ReadbackVerified
    case DriveFinish(plan, r) =>
      && PlanLike(plan, cmd) && ReplayedAt(w, cmd, r, LocalCommitted)
      && Finalize(w.leases, cmd.authority.leaseId) == Ok(w.leases)
    case _ => false
  }

  /** Local variables of an undisturbed call agree with the world it runs in. */
  ghost predicate Exact(w: World, cmd: CheckpointCmd, pc: Pc) {
    match pc
    case Checkpoint(p) => ExactCheckpoint(w, cmd, p)
    case Drive(p) => ExactDrive(w, cmd, p)
    case Done(o) => o.Returned? && ReplayedAt(w, cmd, o.binding, LeaseFinalized)
    case _ => false
  }

  // ---------------------------------------------------------------- starting over leads back

  lemma ToReplay(w: World, cmd: CheckpointCmd, b: Binding)
    requires Guarded(w, cmd, b)
    ensures Finish(w, Entry(cmd)) == Finish(w, Checkpoint(ReadReplay(cmd, b)))
  {
    hide Finish;
    FinishCheckpoint(w, ReadBinding(cmd));
  }

  lemma ToSaga(w: World, cmd: CheckpointCmd, b: Binding)
    requires Fresh(w, cmd, b)
    ensures Finish(w, Entry(cmd)) == Finish(w, Checkpoint(ReadSaga(cmd, b)))
  {
    hide Finish, CheckpointPlanOf;
    ToReplay(w, cmd, b);
    FinishCheckpoint(w, ReadReplay(cmd, b));
  }

  lemma ToReserve(w: World, cmd: CheckpointCmd, b: Binding)
    requires Fresh(w, cmd, b) && cmd.key !in w.t.sagas
    ensures Finish(w, Entry(cmd)) == Finish(w, Checkpoint(ValidateLease(cmd, b)))
    ensures LeaseValid(w, cmd.authority, CheckpointAction) ==> Finish(w, Entry(cmd)) == Finish(w, Checkpoint(ReserveLease(cmd, b)))
  {
    hide Finish, CheckpointPlanOf, LeaseValid;
    ToSaga(w, cmd, b);
    FinishCheckpoint(w, ReadSaga(cmd, b));
    FinishCheckpoint(w, ValidateLease(cmd, b));
  }

  lemma ToBegin(w: World, cmd: CheckpointCmd, b: Binding)
    requires Fresh(w, cmd, b) && cmd.key !in w.t.sagas && LeaseValid(w, cmd.authority, CheckpointAction) && Reserved(w, cmd, b)
    ensures Finish(w, Entry(cmd)) == Finish(w, Checkpoint(Begin(cmd, b)))
  {
    hide Finish, CheckpointPlanOf, LeaseValid, Reserve;
    ToReserve(w, cmd, b);
    FinishCheckpoint(w, ReserveLease(cmd, b));
  }

  lemma ToRecover(w: World, cmd: CheckpointCmd, plan: Plan, st: SagaState)
    requires PlanFor(w, cmd, plan, st)
    ensures Finish(w, Entry(cmd)) == Finish(w, Drive(DriveRecover(plan, st)))
    ensures Finish(w, Entry(cmd)) == Finish(Recovered(w, plan, st).0, Recovered(w, plan, st).1)
  {
    hide Finish, Recovered;
    ToSaga(w, cmd, plan.b);
    FinishCheckpoint(w, ReadSaga(cmd, plan.b));
    FinishDrive(w, DriveRecover(plan, st));
  }

  lemma ToReadback(w: World, cmd: CheckpointCmd, plan: Plan, st: SagaState, e: HazelEvent)
    requires PlanFor(w, cmd, plan, st) && Effected(w, plan, st, e)
    ensures Finish(w, Entry(cmd)) == Finish(w, Drive(DriveEffect(plan, st, e)))
    ensures st != LeaseReserved ==> Finish(w, Entry(cmd)) == Finish(w, Drive(DriveReadback(plan, st, e)))
    ensures st != LeaseReserved ==> Finish(w, Entry(cmd)) == Finish(w, Drive(DriveVerify(plan, st, e)))
  {
    hide Finish, PlanFor, Recovered;
    ToRecover(w, cmd, plan, st);
    FinishDrive(w, DriveEffect(plan, st, e));
    FinishDrive(w, DriveReadback(plan, st, e));
    CheckpointReadback(w, cmd, plan, st, e);
  }

  lemma CheckpointReadback(w: World, cmd: CheckpointCmd, plan: Plan, st: SagaState, e: HazelEvent)
    requires PlanFor(w, cmd, plan, st) && Effected(w, plan, st, e)
    ensures ReadbackStep(w, plan, st, e) == (w, Drive(DriveVerify(plan, st, e)))
  {
    hide Recovered, Begun;
  }

  lemma ToCommit(w: World, cmd: CheckpointCmd, plan: Plan, st: SagaState, e: HazelEvent)
    requires PlanFor(w, cmd, plan, st) && Effected(w, plan, st, e) && st != LeaseReserved && st != EffectApplied
    ensures Finish(w, Entry(cmd)) == Finish(w, Drive(DriveCommit(plan, st, e)))
  {
    hide Finish, Begun, Effected;
    ToReadback(w, cmd, plan, st, e);
    FinishDrive(w, DriveVerify(plan, st, e));
  }

  lemma ToVerifyReplay(w: World, cmd: CheckpointCmd, r: Binding, st: SagaState)
    requires Replayed(w, cmd, r)
    ensures Finish(w, Entry(cmd)) == Finish(w, Checkpoint(ReadReplaySaga(CheckpointPlanOf(cmd, r), r)))
    ensures ReplayedAt(w, cmd, r, st) ==> Finish(w, Entry(cmd)) == Finish(w, Checkpoint(VerifyReplay(CheckpointPlanOf(cmd, r), st, r)))
  {
    hide Finish, SameCheckpoint;
    ToReplay(w, cmd, r);
    FinishCheckpoint(w, ReadReplay(cmd, r));
    FinishCheckpoint(w, ReadReplaySaga(CheckpointPlanOf(cmd, r), r));
  }

  /** The closing steps take only the key and the lease from the plan. */
  lemma SamePlan(w: World, cmd: CheckpointCmd, a: Plan, b: Plan, st: SagaState, r: Binding)
    requires PlanLike(a, cmd) && PlanLike(b, cmd)
    ensures Finish(w, Drive(DriveLocal(a, st, r))) == Finish(w, Drive(DriveLocal(b, st, r)))
    ensures Finish(w, Drive(DriveFinalize(a, st, r))) == Finish(w, Drive(DriveFinalize(b, st, r)))
    ensures Finish(w, Drive(DriveFinish(a, r))) == Finish(w, Drive(DriveFinish(b, r)))
  {
    hide Finish, AdvanceSaga, Finalize;
    SameFinish(w, cmd, a, b, r);
    SameFinalize(w, cmd, a, b, st, r);
    FinishDrive(w, DriveLocal(a, st, r));
    FinishDrive(w, DriveLocal(b, st, r));
    if st == ReadbackVerified {
      match AdvanceSaga(w.t, cmd.key, ReadbackVerified, LocalCommitted)
      case Err(_) =>
      case Ok(x) => SameFinalize(w.(t := x.0), cmd, a, b, x.1, r);
    }
  }

  lemma SameFinalize(w: World, cmd: CheckpointCmd, a: Plan, b: Plan, st: SagaState, r: Binding)
    requires PlanLike(a, cmd) && PlanLike(b, cmd)
    ensures Finish(w, Drive(DriveFinalize(a, st, r))) == Finish(w, Drive(DriveFinalize(b, st, r)))
  {
    hide Finish, AdvanceSaga, Finalize;
    FinishDrive(w, DriveFinalize(a, st, r));
    FinishDrive(w, DriveFinalize(b, st, r));
    if st == LocalCommitted {
      match Finalize(w.leases, cmd.authority.leaseId)
      case Err(_) =>
      case Ok(ls) => SameFinish(w.(leases := ls), cmd, a, b, r);
    }
  }

  lemma SameFinish(w: World, cmd: CheckpointCmd, a: Plan, b: Plan, r: Binding)
    requires PlanLike(a, cmd) && PlanLike(b, cmd)
    ensures Finish(w, Drive(DriveFinish(a, r))) == Finish(w, Drive(DriveFinish(b, r)))
  {
    hide Finish, AdvanceSaga;
    FinishDrive(w, DriveFinish(a, r));
    FinishDrive(w, DriveFinish(b, r));
  }

  lemma ToLocal(w: World, cmd: CheckpointCmd, plan: Plan, st: SagaState, r: Binding)
    requires PlanLike(plan, cmd) && ReplayedAt(w, cmd, r, st) && st != EffectApplied
    ensures Finish(w, Entry(cmd)) == Finish(w, Drive(DriveLocal(plan, st, r)))
    ensures st != ReadbackVerified ==> Finish(w, Entry(cmd)) == Finish(w, Drive(DriveFinalize(plan, st, r)))
  {
    hide Finish, Replayed;
    var again := CheckpointPlanOf(cmd, r);
    ToVerifyReplay(w, cmd, r, st);
    FinishCheckpoint(w, VerifyReplay(again, st, r));
    SamePlan(w, cmd, plan, again, st, r);
    FinishDrive(w, DriveLocal(plan, st, r));
  }

  lemma ToFinish(w: World, cmd: CheckpointCmd, plan: Plan, r: Binding)
    requires PlanLike(plan, cmd) && ReplayedAt(w, cmd, r, LocalCommitted) && Finalize(w.leases, cmd.authority.leaseId) == Ok(w.leases)
    ensures Finish(w, Entry(cmd)) == Finish(w, Drive(DriveFinish(plan, r)))
  {
    hide Finish, ReplayedAt, Finalize;
    ToLocal(w, cmd, plan, LocalCommitted, r);
    FinishDrive(w, DriveFinalize(plan, LocalCommitted, r));
  }

  lemma ToDone(w: World, cmd: CheckpointCmd, r: Binding)
    requires ReplayedAt(w, cmd, r, LeaseFinalized)
    ensures Finish(w, Entry(cmd)) == (w, Returned(r))
  {
    hide Finish, ReplayedAt;
    var plan := CheckpointPlanOf(cmd, r);
    ToLocal(w, cmd, plan, LeaseFinalized, r);
    FinishDrive(w, DriveFinalize(plan, LeaseFinalized, r));
    FinishDone(w, Returned(r));
  }

  lemma RestartCheckpoint(w: World, cmd: CheckpointCmd, pc: CheckpointPc)
    requires ExactCheckpoint(w, cmd, pc)
    ensures Finish(w, Entry(cmd)) == Finish(w, Checkpoint(pc))
  {
    hide Finish, Guarded, Fresh, Replayed, ReplayedAt, Reserved, LeaseValid;
    match pc
    case ReadBinding(c) =>
    case ReadReplay(c, b) => ToReplay(w, cmd, b);
    case ReadReplaySaga(plan, r) => ToVerifyReplay(w, cmd, r, LeaseReserved);
    case VerifyReplay(plan, st, r) => AtIsReplayed(w, cmd, r, st); ToVerifyReplay(w, cmd, r, st);
    case ReadSaga(c, b) => ToSaga(w, cmd, b);
    case ValidateLease(c, b) => ToReserve(w, cmd, b);
    case ReserveLease(c, b) => ToReserve(w, cmd, b);
    case Begin(c, b) => ToBegin(w, cmd, b);
  }

  lemma RestartDrive(w: World, cmd: CheckpointCmd, pc: DrivePc)
    requires ExactDrive(w, cmd, pc)
    ensures Finish(w, Entry(cmd)) == Finish(w, Drive(pc))
  {
    hide Finish, PlanFor, ReplayedAt, Effected, Recovered, Finalize;
    match pc
    case DriveRecover(plan, st) => ToRecover(w, cmd, plan, st);
    case DrivePersist(plan, st, payload) => ToRecover(w, cmd, plan, st);
    case DriveEffect(plan, st, e) => ToReadback(w, cmd, plan, st, e);
    case DriveReadback(plan, st, e) => ToReadback(w, cmd, plan, st, e);
    case DriveVerify(plan, st, e) => ToReadback(w, cmd, plan, st, e);
    case DriveCommit(plan, st, e) => ToCommit(w, cmd, plan, st, e);
    case DriveLocal(plan, st, r) => ToLocal(w, cmd, plan, st, r);
    case DriveFinalize(plan, st, r) => ToLocal(w, cmd, plan, st, r);
    case DriveFinish(plan, r) => ToFinish(w, cmd, plan, r);
  }

  /** Calling again from the entry is as good as carrying on. */
  lemma Restart(w: World, cmd: CheckpointCmd, pc: Pc)
    requires Exact(w, cmd, pc)
    ensures Finish(w, Entry(cmd)) == Finish(w, pc)
  {
    hide Finish, ExactCheckpoint, ExactDrive, ReplayedAt;
    match pc
    case Checkpoint(p) => RestartCheckpoint(w, cmd, p);
    case Drive(p) => RestartDrive(w, cmd, p);
    case Done(o) => ToDone(w, cmd, o.binding); FinishDone(w, o);
  }

  lemma AtIsReplayed(w: World, cmd: CheckpointCmd, r: Binding, st: SagaState)
    requires ReplayedAt(w, cmd, r, st)
    ensures Replayed(w, cmd, r)
  {
    hide Replayed;
  }

  // ---------------------------------------------------------------- an undisturbed call stays exact

  ghost predicate StaysExact(w: World, cmd: CheckpointCmd, r: (World, Pc)) {
    (r.1.Done? && r.0 == w) || Exact(r.0, cmd, r.1)
  }

  lemma ReserveTwice(ls: Leases, id: string, key: Key, use: ActionId)
    requires Reserve(ls, id, key, use).Ok?
    ensures var ls' := Reserve(ls, id, key, use).value;
            Reserve(ls', id, key, use) == Ok(ls')
  {
  }

  lemma FinalizeTwice(ls: Leases, id: string)
    requires Finalize(ls, id).Ok?
    ensures var ls' := Finalize(ls, id).value;
            Finalize(ls', id) == Ok(ls')
  {
  }

  lemma ReserveLeaseExact(w: World, cmd: CheckpointCmd, b: Binding)
    requires ExactCheckpoint(w, cmd, ReserveLease(cmd, b))
    ensures StaysExact(w, cmd, ReserveLeaseStep(w, cmd, b))
  {
    hide SameCheckpoint;
    var use := CheckpointUse(b.id, b.checkpointVersion + 1);
    if Reserve(w.leases, cmd.authority.leaseId, cmd.key, use).Ok? {
      ReserveTwice(w.leases, cmd.authority.leaseId, cmd.key, use);
    }
  }

  lemma CheckpointStaysExact(w: World, cmd: CheckpointCmd, pc: CheckpointPc)
    requires ExactCheckpoint(w, cmd, pc)
    ensures StaysExact(w, cmd, StepCheckpoint(w, pc))
  {
    hide Reserve, SameCheckpoint, ReserveLeaseStep;
    if pc.ReserveLease? {
      ReserveLeaseExact(w, cmd, pc.b);
    }
  }

  lemma PersistExact(w: World, cmd: CheckpointCmd, plan: Plan, st: SagaState, payload: Payload)
    requires ExactDrive(w, cmd, DrivePersist(plan, st, payload))
    ensures StaysExact(w, cmd, PersistStep(w, plan, st, payload))
  {
    hide CheckpointPlanOf;
    var e := PlannedEvent(plan, payload);
    if Persist(w.hazel, e).Ok? {
      var h := Persist(w.hazel, e).value;
      assert Run(h, e.run) == Run(w.hazel, e.run) + [e];
    }
  }

  /** Moving the saga leaves Hazel alone. */
  lemma EffectedAfter(w: World, t: Tables, plan: Plan, st: SagaState, st': SagaState, e: HazelEvent)
    requires plan.CheckpointPlan? && Effected(w, plan, st, e)
    ensures Effected(w.(t := t), plan, st', e)
  {
  }

  lemma EffectExact(w: World, cmd: CheckpointCmd, plan: Plan, st: SagaState, e: HazelEvent)
    requires ExactDrive(w, cmd, DriveEffect(plan, st, e))
    ensures StaysExact(w, cmd, EffectStep(w, plan, st, e))
  {
    hide Effected, SameCheckpoint;
    EffectedAfter(w, EffectStep(w, plan, st, e).0.t, plan, st, EffectApplied, e);
  }

  lemma VerifyExact(w: World, cmd: CheckpointCmd, plan: Plan, st: SagaState, e: HazelEvent)
    requires ExactDrive(w, cmd, DriveVerify(plan, st, e))
    ensures StaysExact(w, cmd, VerifyStep(w, plan, st, e))
  {
    hide Effected, SameCheckpoint;
    EffectedAfter(w, VerifyStep(w, plan, st, e).0.t, plan, st, ReadbackVerified, e);
  }

  lemma CommitExact(w: World, cmd: CheckpointCmd, plan: Plan, st: SagaState, e: HazelEvent)
    requires ExactDrive(w, cmd, DriveCommit(plan, st, e))
    ensures StaysExact(w, cmd, CheckpointCommitStep(w, plan, st, e))
  {
    hide Effected, PlatformTaken, Allowed;
    var a := CheckpointArgs(plan, e);
    if Transition(w.t, a).Ok? {
      var row := JournalEvent(a.binding, a.kind, Some(plan.b.status), a.target, plan.b.version + 1, a.key, TransitionBody(a.note, a.change));
      LookupAppend(w.t.journal, row, a.key);
    }
  }

  lemma LocalExact(w: World, cmd: CheckpointCmd, plan: Plan, st: SagaState, r: Binding)
    requires ExactDrive(w, cmd, DriveLocal(plan, st, r))
    ensures StaysExact(w, cmd, LocalStep(w, plan, st, r))
  {
    hide SameCheckpoint, CheckpointPlanOf;
  }

  lemma FinalizeExact(w: World, cmd: CheckpointCmd, plan: Plan, st: SagaState, r: Binding)
    requires ExactDrive(w, cmd, DriveFinalize(plan, st, r))
    ensures StaysExact(w, cmd, FinalizeStep(w, plan, st, r))
  {
    hide SameCheckpoint, CheckpointPlanOf, Finalize;
    if Finalize(w.leases, cmd.authority.leaseId).Ok? {
      FinalizeTwice(w.leases, cmd.authority.leaseId);
    }
  }

  lemma FinishExact(w: World, cmd: CheckpointCmd, plan: Plan, r: Binding)
    requires ExactDrive(w, cmd, DriveFinish(plan, r))
    ensures StaysExact(w, cmd, FinishStep(w, plan, r))
  {
    hide SameCheckpoint, CheckpointPlanOf, Finalize;
  }

  lemma ReadbackExact(w: World, cmd: CheckpointCmd, plan: Plan, st: SagaState, e: HazelEvent)
    requires ExactDrive(w, cmd, DriveReadback(plan, st, e))
    ensures StaysExact(w, cmd, ReadbackStep(w, plan, st, e))
  {
    hide PlanFor, Effected;
    CheckpointReadback(w, cmd, plan, st, e);
  }

  lemma RecoveredExact(w: World, cmd: CheckpointCmd, plan: Plan, st: SagaState)
    requires PlanFor(w, cmd, plan, st)
    ensures StaysExact(w, cmd, Recovered(w, plan, st))
  {
    hide Begun, CheckpointPlanOf;
  }

  lemma DriveStaysExact(w: World, cmd: CheckpointCmd, pc: DrivePc)
    requires ExactDrive(w, cmd, pc)
    ensures StaysExact(w, cmd, StepDrive(w, pc))
  {
    hide StaysExact, PlanFor, ReplayedAt, Effected, Finalize;
    hide Recovered, PersistStep, EffectStep, ReadbackStep, VerifyStep, CheckpointCommitStep, LocalStep, FinalizeStep, FinishStep;
    match pc
    case DriveRecover(plan, st) => RecoveredExact(w, cmd, plan, st);
    case DrivePersist(plan, st, payload) => PersistExact(w, cmd, plan, st, payload);
    case DriveEffect(plan, st, e) => EffectExact(w, cmd, plan, st, e);
    case DriveReadback(plan, st, e) => ReadbackExact(w, cmd, plan, st, e);
    case DriveVerify(plan, st, e) => VerifyExact(w, cmd, plan, st, e);
    case DriveCommit(plan, st, e) => PlanIsCheckpoint(w, cmd, plan, st); CommitExact(w, cmd, plan, st, e);
    case DriveLocal(plan, st, r) => LocalExact(w, cmd, plan, st, r);
    case DriveFinalize(plan, st, r) => FinalizeExact(w, cmd, plan, st, r);
    case DriveFinish(plan, r) => FinishExact(w, cmd, plan, r);
  }

  lemma PlanIsCheckpoint(w: World, cmd: CheckpointCmd, plan: Plan, st: SagaState)
    requires PlanFor(w, cmd, plan, st)
    ensures plan.CheckpointPlan?
  {
    hide Begun;
  }

  lemma StepStaysExact(w: World, cmd: CheckpointCmd, pc: Pc)
    requires Exact(w, cmd, pc) && !pc.Done?
    ensures StaysExact(w, cmd, Step(w, pc))
  {
    hide StaysExact, ExactCheckpoint, ExactDrive, StepPrepare, StepBridge, StepReconcile, StepCheckpoint, StepReplace, StepRecover, StepDrive;
    match pc
    case Checkpoint(p) => CheckpointStaysExact(w, cmd, p);
    case Drive(p) => DriveStaysExact(w, cmd, p);
  }

  // ---------------------------------------------------------------- convergence

  /** One call, cut anywhere: calling again ends where the call would have ended. */
  lemma {:induction false} CutConverges(w: World, cmd: CheckpointCmd, pc: Pc, k: nat)
    requires Exact(w, cmd, pc)
    ensures Finish(Cut(w, pc, k).0, Entry(cmd)) == Finish(w, pc)
    ensures Keyed(Cut(w, pc, k).0, cmd.binding)
    decreases k
  {
    hide Step, Finish, Exact;
    Restart(w, cmd, pc);
    ExactKeyed(w, cmd, pc);
    if k != 0 && !pc.Done? {
      FinishByStep(w, pc);
      StepStaysExact(w, cmd, pc);
      var r := Step(w, pc);
      if Exact(r.0, cmd, r.1) {
        CutConverges(r.0, cmd, r.1, k - 1);
      }
    }
  }

  lemma ExactKeyed(w: World, cmd: CheckpointCmd, pc: Pc)
    requires Exact(w, cmd, pc)
    ensures Keyed(w, cmd.binding)
  {
    hide SameCheckpoint, CheckpointPlanOf, Finalize, LeaseValid, Reserve, Recovered, Effected;
  }

  /** Any number of calls, each cut anywhere, then one call that is not: one undisturbed call. */
  lemma {:induction false} CheckpointConverges(w: World, cmd: CheckpointCmd, cuts: seq<nat>)
    requires Keyed(w, cmd.binding)
    ensures Finish(Attempts(w, cmd, cuts), Entry(cmd)) == Finish(w, Entry(cmd))
    ensures Keyed(Attempts(w, cmd, cuts), cmd.binding)
  {
    hide Finish, Cut, Keyed;
    if cuts != [] {
      var before := Attempts(w, cmd, DropLast(cuts));
      CheckpointConverges(w, cmd, DropLast(cuts));
      EntryExact(before, cmd);
      CutConverges(before, cmd, Entry(cmd), Last(cuts));
    }
  }

  lemma EntryExact(w: World, cmd: CheckpointCmd)
    requires Keyed(w, cmd.binding)
    ensures Exact(w, cmd, Entry(cmd))
  {
  }
}
