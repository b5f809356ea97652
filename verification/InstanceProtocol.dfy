/**
 The calls of app/ocs_instances/service.py, recovery.py and work_bridge.py as a
 step machine.  A call in flight is a program counter together with the local
 variables the source keeps at that point; one step is one access to the
 registry, to Hazel or to the lease manager.  Reads of rows that no later step
 can change are folded into the step before them, and so is the read-back that
 advance_action_saga makes of the row it has just updated.
 */
module InstanceProtocol {
  import opened Prelude
  import opened InstanceContracts
  import opened InstanceTables
  import opened InstanceEffects

  datatype World = World(
    profiles: map<string, Profile>,
    t: Tables,
    hazel: Logs,
    leases: Leases)

  // ---------------------------------------------------------------- commands

  datatype CheckpointCmd = CheckpointCmd(
    binding: BindingId, authority: Request, platform: string, generation: nat,
    expected: nat, state: string, key: Key)

  datatype ReplaceCmd = ReplaceCmd(
    binding: BindingId, request: Request, platform: string, generation: nat,
    expected: nat, key: Key, now: int)

  datatype Ack = Ack(
    binding: BindingId, platform: string, generation: nat, bootstrap: Bootstrap,
    challengePassed: bool, key: Key, expected: nat)

  datatype AttachCmd = AttachCmd(
    binding: BindingId, platform: string, task: string, taskMatches: bool, expected: nat, key: Key)

  /** What a saga-driving call is about to write; shared by the three drivers. */
  datatype Plan =
    | CheckpointPlan(b: Binding, expected: nat, key: Key, payload: Payload, authority: Request)
    | ReplacePlan(p: Binding, s: Binding, expected: nat, key: Key, payload: Payload, leaseId: string)
    | RecoveryPlan(p: Binding, s: Binding, key: Key, leaseId: string)

  /** Where a lease reconciliation returns to. */
  datatype Resume = ResumePrepare | ResumeReplace(cmd: ReplaceCmd)

  datatype Outcome = Returned(binding: Binding) | Raised(error: Error)

  datatype PreparePc =
    | Lookup(request: Request, now: int)
    | Validate(request: Request, now: int)
    | Generation(request: Request, now: int)
    | ReserveNew(b: Binding)
    | CreateNew(b: Binding)
    | FinalizeNew(b: Binding)
    | HazelCheck(b: Binding)
    | HazelWrite(b: Binding)
    | HazelReadback(b: Binding, e: HazelEvent)
    | HazelCommit(b: Binding, e: HazelEvent)

  datatype BridgePc =
    | AttachCommit(attach: AttachCmd)
    | AckRead(ack: Ack)
    | AckCommit(ack: Ack, b: Binding)

  datatype ReconcilePc =
    | LeaseCheck(b: Binding, resume: Resume)
    | LeaseReserve(b: Binding, resume: Resume)
    | LeaseFinalize(b: Binding, resume: Resume)

  datatype CheckpointPc =
    | ReadBinding(cmd: CheckpointCmd)
    | ReadReplay(cmd: CheckpointCmd, b: Binding)
    | ReadReplaySaga(plan: Plan, b: Binding)
    | VerifyReplay(plan: Plan, st: SagaState, b: Binding)
    | ReadSaga(cmd: CheckpointCmd, b: Binding)
    | ValidateLease(cmd: CheckpointCmd, b: Binding)
    | ReserveLease(cmd: CheckpointCmd, b: Binding)
    | Begin(cmd: CheckpointCmd, b: Binding)

  datatype ReplacePc =
    | ReadPrevious(cmd: ReplaceCmd)
    | ReadExisting(cmd: ReplaceCmd, p: Binding)
    | ReadReplacementSaga(cmd: ReplaceCmd, p: Binding)
    | ValidateReplacement(cmd: ReplaceCmd, p: Binding)
    | ReadPrior(cmd: ReplaceCmd, p: Binding, seen: Option<SagaState>)
    | ReserveReplacement(cmd: ReplaceCmd, p: Binding, prior: HazelEvent)
    | BeginReplacement(cmd: ReplaceCmd, p: Binding, prior: HazelEvent)
    | CreateSuccessor(cmd: ReplaceCmd, p: Binding, prior: HazelEvent, st: SagaState)
    | ReadDoneSaga(cmd: ReplaceCmd, s: Binding)
    | FinishDoneSaga(cmd: ReplaceCmd, s: Binding)

  datatype RecoverPc =
    | ReadLatest(lineage: Lineage)
    | CountActive(b: Binding)
    | ReadStranded(b: Binding)
    | ReadPredecessor(b: Binding)
    | ReadRecentSaga(p: Binding, s: Binding)
    | Fidelity(b: Binding)
    | FidelityPredecessor(b: Binding, e: HazelEvent)

  datatype DrivePc =
    | DriveRecover(plan: Plan, st: SagaState)
    | DrivePersist(plan: Plan, st: SagaState, payload: Payload)
    | DriveEffect(plan: Plan, st: SagaState, e: HazelEvent)
    | DriveReadback(plan: Plan, st: SagaState, e: HazelEvent)
    | DriveVerify(plan: Plan, st: SagaState, e: HazelEvent)
    | DriveCommit(plan: Plan, st: SagaState, e: HazelEvent)
    | Reload(plan: Plan, e: HazelEvent)
    | ReloadSuccessor(plan: Plan, e: HazelEvent, p: Binding)
    | RecoveryCommit(plan: Plan, e: HazelEvent, p: Binding, s: Binding)
    | Confirm(plan: Plan)
    | ConfirmSuccessor(plan: Plan, p: Binding)
    | Resaga(plan: Plan, s: Binding)
    | DriveLocal(plan: Plan, st: SagaState, r: Binding)
    | DriveFinalize(plan: Plan, st: SagaState, r: Binding)
    | DriveFinish(plan: Plan, r: Binding)

  datatype Pc =
    | Prepare(prepare: PreparePc)
    | Bridge(bridge: BridgePc)
    | Reconcile(reconcile: ReconcilePc)
    | Checkpoint(checkpoint: CheckpointPc)
    | Replace(replace: ReplacePc)
    | Recover(recover: RecoverPc)
    | Drive(drive: DrivePc)
    | Done(outcome: Outcome)

  function Fail(error: Error): Pc {
    Done(Raised(error))
  }

  // ---------------------------------------------------------------- helpers

  /** _validate_request. */
  predicate Complete(r: Request) {
    && r.lineage.mission != "" && r.lineage.organization != "" && r.lineage.ocs != ""
    && r.leaseId != "" && r.key != "" && r.details != ""
  }

  /** _validated_lease, as far as the lease record is modelled. */
  predicate LeaseValid(w: World, r: Request, action: LeaseAction) {
    && r.leaseId in w.leases
    && w.leases[r.leaseId].usable
    && w.leases[r.leaseId].state != LeaseReleased
    && w.leases[r.leaseId].action == action
    && r.lineage.ocs in w.profiles
    && w.leases[r.leaseId].authorityRef == w.profiles[r.lineage.ocs].authorityRef
  }

  /** The digest that _envelope yields for a stored binding. */
  function BootstrapOf(bindings: map<BindingId, Binding>, b: Binding): Bootstrap {
    if b.status == Prepared then
      Bootstrap(b.id, b.generation, b.predecessor, b.checkpointVersion, b.checkpoint, b.maturity, b.createdAt)
    else if b.predecessor.Some? && b.predecessor.value in bindings then
      var p := bindings[b.predecessor.value];
      Bootstrap(b.id, b.generation, b.predecessor, p.checkpointVersion, p.checkpoint, b.maturity, b.createdAt)
    else
      Bootstrap(b.id, b.generation, b.predecessor, 0, None, b.maturity, b.createdAt)
  }

  function RootBinding(w: World, r: Request, generation: nat, now: int): Binding
    requires r.lineage.ocs in w.profiles
  {
    var id := BindingOf(r);
    var profile := w.profiles[r.lineage.ocs];
    Binding(id, r.lineage, profile, r, PreparedUnverified, r.leaseId, profile.authorityRef, generation, None,
            Bootstrap(id, generation, None, 0, None, PreparedUnverified, now),
            Prepared, 1, None, 0, None, None, r.key, now)
  }

  function SuccessorBinding(p: Binding, r: Request, authorityRef: string, now: int): Binding {
    var id := BindingOf(r);
    p.(id := id, request := r, leaseId := r.leaseId, authorityRef := authorityRef,
       generation := p.generation + 1, platform := None,
       bootstrap := Bootstrap(id, p.generation + 1, Some(p.id), p.checkpointVersion, p.checkpoint, p.maturity, now),
       status := Prepared, version := 1, predecessor := Some(p.id), key := r.key, createdAt := now)
  }

  function CheckpointPayloadOf(b: Binding, state: string): Payload {
    CheckpointPayload(b.id, b.generation, state)
  }

  function CheckpointPlanOf(cmd: CheckpointCmd, b: Binding): Plan {
    CheckpointPlan(b, cmd.expected, cmd.key, CheckpointPayloadOf(b, cmd.state), cmd.authority)
  }

  function ReplacementFingerprintOf(cmd: ReplaceCmd, p: Binding): Fingerprint {
    ReplacementFingerprint(cmd.request, p.id, p.checkpoint, p.checkpointVersion)
  }

  function FingerprintOf(plan: Plan): Fingerprint
    requires plan.CheckpointPlan?
  {
    CheckpointFingerprint(plan.payload, plan.authority)
  }

  function LeaseOf(plan: Plan): string {
    if plan.CheckpointPlan? then plan.authority.leaseId else plan.leaseId
  }

  function SagaRow(plan: Plan): Saga
    requires plan.CheckpointPlan?
  {
    Saga(plan.b.id, CheckpointSaga, FingerprintOf(plan), LeaseOf(plan), LeaseReserved)
  }

  function ReplacementRow(cmd: ReplaceCmd, p: Binding): Saga {
    Saga(p.id, ReplacementSaga, ReplacementFingerprintOf(cmd, p), cmd.request.leaseId, LeaseReserved)
  }

  /** The binding whose checkpoint the plan continues. */
  function Base(plan: Plan): Binding {
    if plan.CheckpointPlan? then plan.b else plan.p
  }

  function NextVersion(plan: Plan): nat {
    Base(plan).checkpointVersion + 1
  }

  function TraceOf(plan: Plan): Trace {
    match plan
    case CheckpointPlan(_, _, _, _, _) => CheckpointTrace
    case ReplacePlan(_, _, _, _, _, _) => ReplacementTrace
    case RecoveryPlan(_, _, _, _) => ColdRecoveryTrace
  }

  function PlannedEvent(plan: Plan, payload: Payload): HazelEvent {
    HazelEvent(Base(plan).lineage, NextVersion(plan), Base(plan).eventHash, payload, TraceOf(plan))
  }

  function RecoveryPayload(plan: Plan, recovered: Payload): Payload
    requires plan.RecoveryPlan?
  {
    ReplacementPayload(plan.s.id, plan.s.generation, plan.p.id, recovered, plan.s.bootstrap)
  }

  /** _validate_replacement_hazel. */
  predicate IsReplacementOf(e: HazelEvent, p: Binding, s: Binding, expected: nat) {
    && e.version == expected
    && e.predecessor == p.eventHash
    && e.payload.ReplacementPayload?
    && e.payload.binding == s.id
    && e.payload.recoveredFrom == p.id
    && e.payload.generation == p.generation + 1
  }

  // ---------------------------------------------------------------- prepare

  function PreparedState(b: Binding): Payload {
    PreparePayload(b.id, b.generation, b.bootstrap, b.maturity)
  }

  function PrepareEvent(b: Binding): HazelEvent {
    HazelEvent(b.lineage, 1, None, PreparedState(b), PrepareTrace)
  }

  function PersistedArgs(b: Binding, e: HazelEvent): TransitionArgs {
    TransitionArgs(b.id, b.version, Persisted, b.key + ":hazel", InstancePersisted,
                   HazelNote(Sha(e), e.payload),
                   Change(None, Some(1), Some(e.payload), Some(Sha(e)), None))
  }

  ghost function LookupStep(w: World, r: Request, now: int): (World, Pc) {
    if !Complete(r) then (w, Fail(RequestInvalid))
    else if r.lineage.ocs !in w.profiles then (w, Fail(UnknownOcs))
    else
      var found := ByIdempotency(w.t.bindings, r.key);
      if found.None? then (w, Prepare(Validate(r, now)))
      else if found.value.leaseId !in w.leases then (w, Fail(LeaseUnknown))
      else if found.value.request != r then (w, Fail(IdempotencyConflict))
      else if BootstrapOf(w.t.bindings, found.value) != found.value.bootstrap then (w, Fail(BootstrapMismatch))
      else (w, Reconcile(LeaseCheck(found.value, ResumePrepare)))
  }

  ghost function GenerationStep(w: World, r: Request, now: int): (World, Pc) {
    if r.lineage.ocs !in w.profiles then (w, Fail(UnknownOcs))
    else (w, Prepare(ReserveNew(RootBinding(w, r, LatestGeneration(w.t.bindings, r.lineage) + 1, now))))
  }

  function ReserveNewStep(w: World, b: Binding): (World, Pc) {
    match Reserve(w.leases, b.leaseId, b.key, BindUse(b.id))
    case Err(e) => (w, Fail(e))
    case Ok(ls) => (w.(leases := ls), Prepare(CreateNew(b)))
  }

  ghost function CreateNewStep(w: World, b: Binding): (World, Pc) {
    match Create(w.t, b)
    case Err(e) => (w, Fail(e))
    case Ok(r) => (w.(t := r.0), Prepare(FinalizeNew(r.1)))
  }

  function FinalizeNewStep(w: World, b: Binding): (World, Pc) {
    match Finalize(w.leases, b.leaseId)
    case Err(e) => (w, Fail(e))
    case Ok(ls) => (w.(leases := ls), Prepare(HazelCheck(b)))
  }

  function HazelCheckStep(w: World, b: Binding): (World, Pc) {
    var log := Run(w.hazel, b.lineage);
    if log == [] then (w, Prepare(HazelWrite(b)))
    else if Last(log).payload != PreparedState(b) then (w, Fail(HazelConflict))
    else (w, Prepare(HazelCommit(b, Last(log))))
  }

  function HazelWriteStep(w: World, b: Binding): (World, Pc) {
    match Persist(w.hazel, PrepareEvent(b))
    case Err(e) => (w, Fail(e))
    case Ok(h) => (w.(hazel := h), Prepare(HazelReadback(b, PrepareEvent(b))))
  }

  function HazelReadbackStep(w: World, b: Binding, e: HazelEvent): (World, Pc) {
    var log := Run(w.hazel, b.lineage);
    if log == [] || Last(log) != e then (w, Fail(ReadbackMismatch)) else (w, Prepare(HazelCommit(b, e)))
  }

  /** A transition that ends the call. */
  ghost function TransitionStep(w: World, a: TransitionArgs): (World, Pc) {
    match Transition(w.t, a)
    case Err(x) => (w, Fail(x))
    case Ok(r) => (w.(t := r.0), Done(Returned(r.1)))
  }

  ghost function StepPrepare(w: World, pc: PreparePc): (World, Pc) {
    match pc
    case Lookup(r, now) => LookupStep(w, r, now)
    case Validate(r, now) =>
      if LeaseValid(w, r, BindAction) then (w, Prepare(Generation(r, now))) else (w, Fail(LeaseRejected))
    case Generation(r, now) => GenerationStep(w, r, now)
    case ReserveNew(b) => ReserveNewStep(w, b)
    case CreateNew(b) => CreateNewStep(w, b)
    case FinalizeNew(b) => FinalizeNewStep(w, b)
    case HazelCheck(b) => HazelCheckStep(w, b)
    case HazelWrite(b) => HazelWriteStep(w, b)
    case HazelReadback(b, e) => HazelReadbackStep(w, b, e)
    case HazelCommit(b, e) => TransitionStep(w, PersistedArgs(b, e))
  }

  // ---------------------------------------------------------------- bridge

  function AttachArgs(a: AttachCmd): TransitionArgs {
    TransitionArgs(a.binding, a.expected, Bound, a.key, PlatformAttached, TaskNote(a.task),
                   Change(Some(a.platform), None, None, None, None))
  }

  function AckArgs(a: Ack): TransitionArgs {
    TransitionArgs(a.binding, a.expected, Active, a.key, BootstrapAcknowledged, AckNote(a.generation, a.bootstrap),
                   Change(None, None, None, None, Some(OperationallyBoundL1)))
  }

  ghost function AttachStep(w: World, a: AttachCmd): (World, Pc) {
    if a.platform == "" || a.task == "" || !a.taskMatches then (w, Fail(TaskMismatch))
    else TransitionStep(w, AttachArgs(a))
  }

  ghost function AckReadStep(w: World, a: Ack): (World, Pc) {
    if a.binding !in w.t.bindings then (w, Fail(BindingNotFound))
    else
      var b := w.t.bindings[a.binding];
      if b.status != Bound || b.platform != Some(a.platform) || b.generation != a.generation
         || b.bootstrap != a.bootstrap || !a.challengePassed then (w, Fail(AckMismatch))
      else (w, Bridge(AckCommit(a, b)))
  }

  ghost function StepBridge(w: World, pc: BridgePc): (World, Pc) {
    match pc
    case AttachCommit(a) => AttachStep(w, a)
    case AckRead(a) => AckReadStep(w, a)
    case AckCommit(a, b) => TransitionStep(w, AckArgs(a))
  }

  // ---------------------------------------------------------------- _reconcile_binding_lease

  function Resumed(b: Binding, resume: Resume): Pc {
    match resume
    case ResumePrepare => if b.status == Prepared then Prepare(HazelCheck(b)) else Done(Returned(b))
    case ResumeReplace(cmd) => Replace(ReadDoneSaga(cmd, b))
  }

  function LeaseCheckStep(w: World, b: Binding, resume: Resume): (World, Pc) {
    if b.leaseId !in w.leases then (w, Fail(LeaseUnknown))
    else if w.leases[b.leaseId].state == LeaseReleased then (w, Resumed(b, resume))
    else (w, Reconcile(LeaseReserve(b, resume)))
  }

  function LeaseReserveStep(w: World, b: Binding, resume: Resume): (World, Pc) {
    match Reserve(w.leases, b.leaseId, b.key, BindUse(b.id))
    case Err(e) => (w, Fail(e))
    case Ok(ls) => (w.(leases := ls), Reconcile(LeaseFinalize(b, resume)))
  }

  function LeaseFinalizeStep(w: World, b: Binding, resume: Resume): (World, Pc) {
    match Finalize(w.leases, b.leaseId)
    case Err(e) => (w, Fail(e))
    case Ok(ls) => (w.(leases := ls), Resumed(b, resume))
  }

  function StepReconcile(w: World, pc: ReconcilePc): (World, Pc) {
    match pc
    case LeaseCheck(b, resume) => LeaseCheckStep(w, b, resume)
    case LeaseReserve(b, resume) => LeaseReserveStep(w, b, resume)
    case LeaseFinalize(b, resume) => LeaseFinalizeStep(w, b, resume)
  }

  // ---------------------------------------------------------------- checkpoint

  /** checkpoint_replay. */
  predicate SameCheckpoint(e: JournalEvent, b: BindingId, fingerprint: Fingerprint) {
    && e.binding == b
    && e.kind == InstanceCheckpointed
    && e.to == Checkpointed
    && e.body.TransitionBody? && e.body.note.CheckpointNote?
    && e.body.note.fingerprint == fingerprint
  }

  ghost function ReadBindingStep(w: World, cmd: CheckpointCmd): (World, Pc) {
    if cmd.binding !in w.t.bindings then (w, Fail(BindingNotFound))
    else
      var b := w.t.bindings[cmd.binding];
      if b.status != Active && b.status != Checkpointed then (w, Fail(NotActive))
      else if b.platform != Some(cmd.platform) || b.generation != cmd.generation then (w, Fail(WorkerFenced))
      else (w, Checkpoint(ReadReplay(cmd, b)))
  }

  ghost function ReadReplayStep(w: World, cmd: CheckpointCmd, b: Binding): (World, Pc) {
    var plan := CheckpointPlanOf(cmd, b);
    var replay := InstanceTables.Lookup(w.t.journal, cmd.key);
    if replay.None? then
      if cmd.authority.lineage != b.lineage then (w, Fail(ScopeMismatch)) else (w, Checkpoint(ReadSaga(cmd, b)))
    else if !SameCheckpoint(replay.value, b.id, FingerprintOf(plan)) then (w, Fail(IdempotencyConflict))
    else if b.id !in w.t.bindings then (w, Fail(BindingNotFound))
    else (w, Checkpoint(ReadReplaySaga(plan, w.t.bindings[b.id])))
  }

  ghost function ReadReplaySagaStep(w: World, plan: Plan, r: Binding): (World, Pc) {
    if plan.key !in w.t.sagas then (w, Fail(SagaNotFound))
    else (w, Checkpoint(VerifyReplay(plan, w.t.sagas[plan.key].state, r)))
  }

  ghost function VerifyReplayStep(w: World, plan: Plan, st: SagaState, r: Binding): (World, Pc) {
    if st != EffectApplied then (w, Drive(DriveLocal(plan, st, r)))
    else match AdvanceSaga(w.t, plan.key, EffectApplied, ReadbackVerified)
         case Err(e) => (w, Fail(e))
         case Ok(a) => (w.(t := a.0), Drive(DriveLocal(plan, a.1, r)))
  }

  ghost function ReadSagaStep(w: World, cmd: CheckpointCmd, b: Binding): (World, Pc) {
    var plan := CheckpointPlanOf(cmd, b);
    if cmd.key !in w.t.sagas then (w, Checkpoint(ValidateLease(cmd, b)))
    else
      var saga := w.t.sagas[cmd.key];
      if saga.binding != b.id || saga.fingerprint != FingerprintOf(plan) then (w, Fail(IdempotencyConflict))
      else if LeaseOf(plan) !in w.leases then (w, Fail(LeaseUnknown))
      else (w, Drive(DriveRecover(plan, saga.state)))
  }

  function ReserveLeaseStep(w: World, cmd: CheckpointCmd, b: Binding): (World, Pc) {
    match Reserve(w.leases, cmd.authority.leaseId, cmd.key, CheckpointUse(b.id, b.checkpointVersion + 1))
    case Err(e) => (w, Fail(e))
    case Ok(ls) => (w.(leases := ls), Checkpoint(Begin(cmd, b)))
  }

  ghost function BeginStep(w: World, cmd: CheckpointCmd, b: Binding): (World, Pc) {
    var plan := CheckpointPlanOf(cmd, b);
    match BeginSaga(w.t, cmd.key, SagaRow(plan))
    case Err(e) => (w, Fail(e))
    case Ok(a) => (w.(t := a.0), Drive(DriveRecover(plan, a.1)))
  }

  ghost function StepCheckpoint(w: World, pc: CheckpointPc): (World, Pc) {
    match pc
    case ReadBinding(cmd) => ReadBindingStep(w, cmd)
    case ReadReplay(cmd, b) => ReadReplayStep(w, cmd, b)
    case ReadReplaySaga(plan, r) => ReadReplaySagaStep(w, plan, r)
    case VerifyReplay(plan, st, r) => VerifyReplayStep(w, plan, st, r)
    case ReadSaga(cmd, b) => ReadSagaStep(w, cmd, b)
    case ValidateLease(cmd, b) =>
      if LeaseValid(w, cmd.authority, CheckpointAction) then (w, Checkpoint(ReserveLease(cmd, b)))
      else (w, Fail(LeaseRejected))
    case ReserveLease(cmd, b) => ReserveLeaseStep(w, cmd, b)
    case Begin(cmd, b) => BeginStep(w, cmd, b)
  }

  // ---------------------------------------------------------------- replace

  /** The payload to carry over: a prior write of this very replacement is unwrapped. */
  function CarriedPayload(p: Binding, s: Binding, prior: HazelEvent): Payload {
    if prior.version == p.checkpointVersion + 1 && prior.payload.binding == s.id && prior.payload.ReplacementPayload?
    then prior.payload.recovered
    else prior.payload
  }

  function ReplacePlanOf(cmd: ReplaceCmd, p: Binding, s: Binding, prior: HazelEvent): Plan {
    ReplacePlan(p, s, cmd.expected, cmd.key,
                ReplacementPayload(s.id, s.generation, p.id, CarriedPayload(p, s, prior), s.bootstrap),
                cmd.request.leaseId)
  }

  ghost function ReadPreviousStep(w: World, cmd: ReplaceCmd): (World, Pc) {
    if !Complete(cmd.request) then (w, Fail(RequestInvalid))
    else if cmd.binding !in w.t.bindings then (w, Fail(BindingNotFound))
    else (w, Replace(ReadExisting(cmd, w.t.bindings[cmd.binding])))
  }

  ghost function ReadExistingStep(w: World, cmd: ReplaceCmd, p: Binding): (World, Pc) {
    var found := ByIdempotency(w.t.bindings, cmd.request.key);
    if p.status == Replaced then
      if found.None? || found.value.predecessor != Some(p.id) || found.value.request != cmd.request then
        (w, Fail(IdempotencyConflict))
      else if found.value.leaseId !in w.leases then (w, Fail(LeaseUnknown))
      else if BootstrapOf(w.t.bindings, found.value) != found.value.bootstrap then (w, Fail(BootstrapMismatch))
      else (w, Reconcile(LeaseCheck(found.value, ResumeReplace(cmd))))
    else if p.status != Checkpointed then (w, Fail(CheckpointRequired))
    else if p.platform != Some(cmd.platform) || p.generation != cmd.generation then (w, Fail(WorkerFenced))
    else if cmd.request.lineage != p.lineage then (w, Fail(ScopeMismatch))
    else if cmd.request.causation != p.eventHash then (w, Fail(CausationMismatch))
    else if p.lineage.ocs !in w.profiles || w.profiles[p.lineage.ocs] != p.profile then (w, Fail(ProfileDrift))
    else if p.leaseId !in w.leases then (w, Fail(LeaseUnknown))
    else (w, Replace(ReadReplacementSaga(cmd, p)))
  }

  ghost function ReadReplacementSagaStep(w: World, cmd: ReplaceCmd, p: Binding): (World, Pc) {
    if cmd.key !in w.t.sagas then (w, Replace(ValidateReplacement(cmd, p)))
    else
      var saga := w.t.sagas[cmd.key];
      if saga.binding != p.id || saga.fingerprint != ReplacementFingerprintOf(cmd, p) then (w, Fail(IdempotencyConflict))
      else if cmd.request.leaseId !in w.leases then (w, Fail(LeaseUnknown))
      else (w, Replace(ReadPrior(cmd, p, Some(saga.state))))
  }

  ghost function ReadPriorStep(w: World, cmd: ReplaceCmd, p: Binding, seen: Option<SagaState>): (World, Pc) {
    var log := Run(w.hazel, p.lineage);
    if log == [] then (w, Fail(HazelMissing))
    else if seen.None? then (w, Replace(ReserveReplacement(cmd, p, Last(log))))
    else (w, Replace(CreateSuccessor(cmd, p, Last(log), seen.value)))
  }

  function ReserveReplacementStep(w: World, cmd: ReplaceCmd, p: Binding, prior: HazelEvent): (World, Pc) {
    match Reserve(w.leases, cmd.request.leaseId, cmd.request.key, BindUse(BindingOf(cmd.request)))
    case Err(e) => (w, Fail(e))
    case Ok(ls) => (w.(leases := ls), Replace(BeginReplacement(cmd, p, prior)))
  }

  ghost function BeginReplacementStep(w: World, cmd: ReplaceCmd, p: Binding, prior: HazelEvent): (World, Pc) {
    match BeginSaga(w.t, cmd.key, ReplacementRow(cmd, p))
    case Err(e) => (w, Fail(e))
    case Ok(a) => (w.(t := a.0), Replace(CreateSuccessor(cmd, p, prior, a.1)))
  }

  ghost function CreateSuccessorStep(w: World, cmd: ReplaceCmd, p: Binding, prior: HazelEvent, st: SagaState): (World, Pc) {
    if cmd.request.leaseId !in w.leases then (w, Fail(LeaseUnknown))
    else match Create(w.t, SuccessorBinding(p, cmd.request, w.leases[cmd.request.leaseId].authorityRef, cmd.now))
         case Err(e) => (w, Fail(e))
         case Ok(r) => (w.(t := r.0), Drive(DriveRecover(ReplacePlanOf(cmd, p, r.1, prior), st)))
  }

  ghost function FinishDoneSagaStep(w: World, cmd: ReplaceCmd, s: Binding): (World, Pc) {
    match AdvanceSaga(w.t, cmd.key, LocalCommitted, LeaseFinalized)
    case Err(e) => (w, Fail(e))
    case Ok(a) => (w.(t := a.0), Done(Returned(s)))
  }

  ghost function StepReplace(w: World, pc: ReplacePc): (World, Pc) {
    match pc
    case ReadPrevious(cmd) => ReadPreviousStep(w, cmd)
    case ReadExisting(cmd, p) => ReadExistingStep(w, cmd, p)
    case ReadReplacementSaga(cmd, p) => ReadReplacementSagaStep(w, cmd, p)
    case ValidateReplacement(cmd, p) =>
      if LeaseValid(w, cmd.request, BindAction) then (w, Replace(ReadPrior(cmd, p, None))) else (w, Fail(LeaseRejected))
    case ReadPrior(cmd, p, seen) => ReadPriorStep(w, cmd, p, seen)
    case ReserveReplacement(cmd, p, prior) => ReserveReplacementStep(w, cmd, p, prior)
    case BeginReplacement(cmd, p, prior) => BeginReplacementStep(w, cmd, p, prior)
    case CreateSuccessor(cmd, p, prior, st) => CreateSuccessorStep(w, cmd, p, prior, st)
    case ReadDoneSaga(cmd, s) =>
      if cmd.key in w.t.sagas && w.t.sagas[cmd.key].state == LocalCommitted then (w, Replace(FinishDoneSaga(cmd, s)))
      else (w, Done(Returned(s)))
    case FinishDoneSaga(cmd, s) => FinishDoneSagaStep(w, cmd, s)
  }

  // ---------------------------------------------------------------- recover

  ghost predicate IsLatest(bindings: map<BindingId, Binding>, b: Binding) {
    && (exists id :: id in bindings && bindings[id] == b)
    && IsLatestGeneration(bindings, b.lineage, b.generation)
  }

  ghost function LatestBinding(bindings: map<BindingId, Binding>, l: Lineage): Option<Binding> {
    if exists id :: id in bindings && bindings[id].lineage == l && IsLatest(bindings, bindings[id]) then
      var id :| id in bindings && bindings[id].lineage == l && IsLatest(bindings, bindings[id]);
      Some(bindings[id])
    else
      None
  }

  /** At most one row of the lineage is ACTIVE. */
  ghost predicate SingleActive(bindings: map<BindingId, Binding>, l: Lineage) {
    forall i, j ::
      (&& i in bindings && bindings[i].lineage == l && bindings[i].status == Active
       && j in bindings && bindings[j].lineage == l && bindings[j].status == Active)
      ==> i == j
  }

  /** _validate_local_identity. */
  predicate LocalIdentity(w: World, b: Binding) {
    && b.lineage.ocs in w.profiles
    && b.profile == w.profiles[b.lineage.ocs]
    && b.authorityRef == b.profile.authorityRef
    && b.leaseId in w.leases
    && w.leases[b.leaseId].authorityRef == b.authorityRef
  }

  function RecentSaga(t: Tables, id: BindingId): Option<Key> {
    if id in t.recent && t.recent[id] in t.sagas then Some(t.recent[id]) else None
  }

  /** _validate_hazel_fidelity, up to the lookup of the predecessor. */
  predicate Faithful(b: Binding, e: HazelEvent) {
    && e.version == b.checkpointVersion
    && Some(Sha(e)) == b.eventHash
    && Some(e.payload) == b.checkpoint
    && e.payload.binding == b.id
    && e.payload.generation == b.generation
  }

  ghost function ReadLatestStep(w: World, l: Lineage): (World, Pc) {
    var latest := LatestBinding(w.t.bindings, l);
    if latest.None? then (w, Fail(BindingNotFound))
    else if !LocalIdentity(w, latest.value) then (w, Fail(ProfileDrift))
    else (w, Recover(CountActive(latest.value)))
  }

  ghost function CountActiveStep(w: World, b: Binding): (World, Pc) {
    if !SingleActive(w.t.bindings, b.lineage) then (w, Fail(MultipleActive))
    else if b.predecessor.None? then (w, Recover(ReadStranded(b)))
    else (w, Recover(ReadPredecessor(b)))
  }

  ghost function ReadStrandedStep(w: World, b: Binding): (World, Pc) {
    var key := RecentSaga(w.t, b.id);
    if key.Some? && w.t.sagas[key.value].state != LeaseFinalized then (w, Fail(SuccessorMissing))
    else (w, Recover(Fidelity(b)))
  }

  ghost function ReadPredecessorStep(w: World, s: Binding): (World, Pc) {
    if s.predecessor.None? || s.predecessor.value !in w.t.bindings then (w, Fail(BindingNotFound))
    else (w, Recover(ReadRecentSaga(w.t.bindings[s.predecessor.value], s)))
  }

  ghost function ReadRecentSagaStep(w: World, p: Binding, s: Binding): (World, Pc) {
    var key := RecentSaga(w.t, p.id);
    if key.None? then (w, Fail(SagaMissing))
    else
      var saga := w.t.sagas[key.value];
      if saga.leaseId != s.leaseId then (w, Fail(LeaseMismatch))
      else if saga.leaseId !in w.leases then (w, Fail(LeaseUnknown))
      else if w.leases[saga.leaseId].authorityRef != s.authorityRef then (w, Fail(LeaseMismatch))
      else (w, Drive(DriveRecover(RecoveryPlan(p, s, key.value, saga.leaseId), saga.state)))
  }

  ghost function FidelityStep(w: World, b: Binding): (World, Pc) {
    var log := Run(w.hazel, b.lineage);
    if log == [] then (w, Fail(HazelMissing))
    else if !Faithful(b, Last(log)) then (w, Fail(ReadbackMismatch))
    else if b.predecessor.None? then (w, Done(Returned(b)))
    else (w, Recover(FidelityPredecessor(b, Last(log))))
  }

  ghost function FidelityPredecessorStep(w: World, b: Binding, e: HazelEvent): (World, Pc) {
    if b.predecessor.None? || b.predecessor.value !in w.t.bindings then (w, Fail(BindingNotFound))
    else if !IsReplacementOf(e, w.t.bindings[b.predecessor.value], b, b.checkpointVersion) then (w, Fail(ReadbackMismatch))
    else (w, Done(Returned(b)))
  }

  ghost function StepRecover(w: World, pc: RecoverPc): (World, Pc) {
    match pc
    case ReadLatest(l) => ReadLatestStep(w, l)
    case CountActive(b) => CountActiveStep(w, b)
    case ReadStranded(b) => ReadStrandedStep(w, b)
    case ReadPredecessor(s) => ReadPredecessorStep(w, s)
    case ReadRecentSaga(p, s) => ReadRecentSagaStep(w, p, s)
    case Fidelity(b) => FidelityStep(w, b)
    case FidelityPredecessor(b, e) => FidelityPredecessorStep(w, b, e)
  }

  // ---------------------------------------------------------------- the saga driver

  /** The committed status pair that recovery insists on. */
  predicate CommittedPair(p: Binding, s: Binding) {
    p.status == Replaced && s.status in {Persisted, Bound, Active, Checkpointed}
  }

  function CheckpointArgs(plan: Plan, e: HazelEvent): TransitionArgs
    requires plan.CheckpointPlan?
  {
    TransitionArgs(plan.b.id, plan.expected, Checkpointed, plan.key, InstanceCheckpointed,
                   CheckpointNote(NextVersion(plan), Sha(e), FingerprintOf(plan)),
                   Change(None, Some(NextVersion(plan)), Some(e.payload), Some(Sha(e)), None))
  }

  function ReplaceArgs(plan: Plan, e: HazelEvent): CommitArgs
    requires plan.ReplacePlan?
  {
    CommitArgs(plan.p.id, plan.expected, plan.s.id, 1, plan.key, NextVersion(plan), e.payload, Sha(e))
  }

  function RecoveryArgs(plan: Plan, e: HazelEvent, p: Binding, s: Binding): CommitArgs {
    CommitArgs(p.id, p.version, s.id, s.version, plan.key, NextVersion(plan), e.payload, Sha(e))
  }

  /** Recovery looks at both rows again before it commits. */
  function AfterVerify(plan: Plan, st: SagaState, e: HazelEvent): Pc {
    if plan.RecoveryPlan? then Drive(Reload(plan, e)) else Drive(DriveCommit(plan, st, e))
  }

  function AfterSaga(plan: Plan, st: SagaState, r: Binding): Pc {
    if !plan.RecoveryPlan? then Done(Returned(r))
    else if st != LeaseFinalized then Fail(SagaIncomplete)
    else Recover(Fidelity(r))
  }

  function Recovered(w: World, plan: Plan, st: SagaState): (World, Pc) {
    var log := Run(w.hazel, Base(plan).lineage);
    if log == [] then (w, Fail(HazelMissing))
    else
      var e := Last(log);
      if e.version == NextVersion(plan) then
        if !plan.RecoveryPlan? && e.payload != plan.payload then (w, Fail(HazelConflict))
        else (w, Drive(DriveEffect(plan, st, e)))
      else if e.version == Base(plan).checkpointVersion then
        if !plan.RecoveryPlan? then (w, Drive(DrivePersist(plan, st, plan.payload)))
        else if plan.s.status != Prepared then (w, Fail(HazelMissing))
        else (w, Drive(DrivePersist(plan, st, RecoveryPayload(plan, e.payload))))
      else (w, Fail(HazelVersionConflict))
  }

  ghost function PersistStep(w: World, plan: Plan, st: SagaState, payload: Payload): (World, Pc) {
    var e := PlannedEvent(plan, payload);
    match Persist(w.hazel, e)
    case Err(x) => (w, Fail(x))
    case Ok(h) => (w.(hazel := h), Drive(DriveEffect(plan, st, e)))
  }

  ghost function EffectStep(w: World, plan: Plan, st: SagaState, e: HazelEvent): (World, Pc) {
    if st != LeaseReserved then (w, Drive(DriveReadback(plan, st, e)))
    else match AdvanceSaga(w.t, plan.key, LeaseReserved, EffectApplied)
         case Err(x) => (w, Fail(x))
         case Ok(a) => (w.(t := a.0), Drive(DriveReadback(plan, a.1, e)))
  }

  ghost function ReadbackStep(w: World, plan: Plan, st: SagaState, e: HazelEvent): (World, Pc) {
    var log := Run(w.hazel, Base(plan).lineage);
    if log == [] then (w, Fail(HazelMissing))
    else if plan.RecoveryPlan? && !IsReplacementOf(Last(log), plan.p, plan.s, NextVersion(plan)) then (w, Fail(ReadbackMismatch))
    else if Last(log) != e then (w, Fail(ReadbackMismatch))
    else (w, Drive(DriveVerify(plan, st, e)))
  }

  ghost function VerifyStep(w: World, plan: Plan, st: SagaState, e: HazelEvent): (World, Pc) {
    if st != EffectApplied then (w, AfterVerify(plan, st, e))
    else match AdvanceSaga(w.t, plan.key, EffectApplied, ReadbackVerified)
         case Err(x) => (w, Fail(x))
         case Ok(a) => (w.(t := a.0), AfterVerify(plan, a.1, e))
  }

  ghost function CheckpointCommitStep(w: World, plan: Plan, st: SagaState, e: HazelEvent): (World, Pc)
    requires plan.CheckpointPlan?
  {
    match Transition(w.t, CheckpointArgs(plan, e))
    case Err(x) => (w, Fail(x))
    case Ok(r) => (w.(t := r.0), Drive(DriveLocal(plan, st, r.1)))
  }

  ghost function ReplaceCommitStep(w: World, plan: Plan, st: SagaState, e: HazelEvent): (World, Pc)
    requires plan.ReplacePlan?
  {
    match CommitReplacement(w.t, ReplaceArgs(plan, e))
    case Err(x) => (w, Fail(x))
    case Ok(r) => (w.(t := r.0), Drive(DriveLocal(plan, st, r.1)))
  }

  ghost function CommitStep(w: World, plan: Plan, st: SagaState, e: HazelEvent): (World, Pc) {
    match plan
    case CheckpointPlan(_, _, _, _, _) => CheckpointCommitStep(w, plan, st, e)
    case ReplacePlan(_, _, _, _, _, _) => ReplaceCommitStep(w, plan, st, e)
    case RecoveryPlan(_, _, _, _) => (w, Drive(Reload(plan, e)))
  }

  ghost function ReloadStep(w: World, plan: Plan, e: HazelEvent): (World, Pc) {
    if Base(plan).id !in w.t.bindings then (w, Fail(BindingNotFound))
    else (w, Drive(ReloadSuccessor(plan, e, w.t.bindings[Base(plan).id])))
  }

  ghost function ReloadSuccessorStep(w: World, plan: Plan, e: HazelEvent, p: Binding): (World, Pc) {
    if !plan.RecoveryPlan? || plan.s.id !in w.t.bindings then (w, Fail(BindingNotFound))
    else
      var s := w.t.bindings[plan.s.id];
      if p.status == Checkpointed && s.status == Prepared then (w, Drive(RecoveryCommit(plan, e, p, s)))
      else (w, Drive(Confirm(plan)))
  }

  ghost function RecoveryCommitStep(w: World, plan: Plan, e: HazelEvent, p: Binding, s: Binding): (World, Pc) {
    match CommitReplacement(w.t, RecoveryArgs(plan, e, p, s))
    case Err(x) => (w, Fail(x))
    case Ok(r) => (w.(t := r.0), Drive(Confirm(plan)))
  }

  ghost function ConfirmStep(w: World, plan: Plan): (World, Pc) {
    if Base(plan).id !in w.t.bindings then (w, Fail(BindingNotFound))
    else (w, Drive(ConfirmSuccessor(plan, w.t.bindings[Base(plan).id])))
  }

  ghost function ConfirmSuccessorStep(w: World, plan: Plan, p: Binding): (World, Pc) {
    if !plan.RecoveryPlan? || plan.s.id !in w.t.bindings then (w, Fail(BindingNotFound))
    else if !CommittedPair(p, w.t.bindings[plan.s.id]) then (w, Fail(CommitIncomplete))
    else (w, Drive(Resaga(plan, w.t.bindings[plan.s.id])))
  }

  ghost function ResagaStep(w: World, plan: Plan, s: Binding): (World, Pc) {
    if plan.key !in w.t.sagas then (w, Fail(SagaNotFound))
    else (w, Drive(DriveLocal(plan, w.t.sagas[plan.key].state, s)))
  }

  ghost function LocalStep(w: World, plan: Plan, st: SagaState, r: Binding): (World, Pc) {
    if st != ReadbackVerified then (w, Drive(DriveFinalize(plan, st, r)))
    else match AdvanceSaga(w.t, plan.key, ReadbackVerified, LocalCommitted)
         case Err(x) => (w, Fail(x))
         case Ok(a) => (w.(t := a.0), Drive(DriveFinalize(plan, a.1, r)))
  }

  ghost function FinalizeStep(w: World, plan: Plan, st: SagaState, r: Binding): (World, Pc) {
    if st != LocalCommitted then (w, AfterSaga(plan, st, r))
    else match Finalize(w.leases, LeaseOf(plan))
         case Err(x) => (w, Fail(x))
         case Ok(ls) => (w.(leases := ls), Drive(DriveFinish(plan, r)))
  }

  ghost function FinishStep(w: World, plan: Plan, r: Binding): (World, Pc) {
    match AdvanceSaga(w.t, plan.key, LocalCommitted, LeaseFinalized)
    case Err(x) => (w, Fail(x))
    case Ok(a) => (w.(t := a.0), AfterSaga(plan, a.1, r))
  }

  ghost function StepDrive(w: World, pc: DrivePc): (World, Pc) {
    match pc
    case DriveRecover(plan, st) => Recovered(w, plan, st)
    case DrivePersist(plan, st, payload) => PersistStep(w, plan, st, payload)
    case DriveEffect(plan, st, e) => EffectStep(w, plan, st, e)
    case DriveReadback(plan, st, e) => ReadbackStep(w, plan, st, e)
    case DriveVerify(plan, st, e) => VerifyStep(w, plan, st, e)
    case DriveCommit(plan, st, e) => CommitStep(w, plan, st, e)
    case Reload(plan, e) => ReloadStep(w, plan, e)
    case ReloadSuccessor(plan, e, p) => ReloadSuccessorStep(w, plan, e, p)
    case RecoveryCommit(plan, e, p, s) => RecoveryCommitStep(w, plan, e, p, s)
    case Confirm(plan) => ConfirmStep(w, plan)
    case ConfirmSuccessor(plan, p) => ConfirmSuccessorStep(w, plan, p)
    case Resaga(plan, s) => ResagaStep(w, plan, s)
    case DriveLocal(plan, st, r) => LocalStep(w, plan, st, r)
    case DriveFinalize(plan, st, r) => FinalizeStep(w, plan, st, r)
    case DriveFinish(plan, r) => FinishStep(w, plan, r)
  }

  /** One step of one call.  A finished call does nothing. */
  ghost function Step(w: World, pc: Pc): (World, Pc) {
    match pc
    case Prepare(p) => StepPrepare(w, p)
    case Bridge(p) => StepBridge(w, p)
    case Reconcile(p) => StepReconcile(w, p)
    case Checkpoint(p) => StepCheckpoint(w, p)
    case Replace(p) => StepReplace(w, p)
    case Recover(p) => StepRecover(w, p)
    case Drive(p) => StepDrive(w, p)
    case Done(_) => (w, pc)
  }
}
