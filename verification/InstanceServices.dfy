/**
 The service, the cold-start recovery and the Work bridge as objects over the
 three stores.  Every call ends exactly where the step machine says it ends;
 what the step machine guarantees therefore holds of these methods.
 */
module InstanceServices {
  import opened Prelude
  import opened InstanceContracts
  import opened InstanceTables
  import opened InstanceEffects
  import opened InstanceProtocol
  import opened InstanceChain
  import opened InstanceFinish
  import opened InstanceStore

  /** The registry, Hazel and the leases, and the saga steps that the calls share. */
  class SagaRunner {
    const profiles: map<string, Profile>
    const store: InstanceBindingStore
    const hazel: HazelRegister
    const leases: AuthorityLeaseManager

    constructor (profiles: map<string, Profile>, store: InstanceBindingStore, hazel: HazelRegister, leases: AuthorityLeaseManager)
      ensures this.profiles == profiles && this.store == store && this.hazel == hazel && this.leases == leases
    {
      this.profiles, this.store, this.hazel, this.leases := profiles, store, hazel, leases;
    }

    function State(): World
      reads store, hazel, leases
    {
      World(profiles, store.Contents(), hazel.runs, leases.leases)
    }

    method CheckFidelity(b: Binding) returns (out: Outcome)
      requires store.Valid()
      ensures (State(), out) == Finish(State(), Recover(Fidelity(b)))
    {
      hide Finish;
      FinishRecover(State(), Fidelity(b));
      var found := hazel.RecoverState(b.lineage);
      if found.Err? {
        out := Raised(HazelMissing);
      } else if !Faithful(b, found.value) {
        out := Raised(ReadbackMismatch);
      } else if b.predecessor.None? {
        out := Returned(b);
      } else {
        FinishRecover(State(), FidelityPredecessor(b, found.value));
        var p := store.Get(b.predecessor.value);
        if p.Err? {
          out := Raised(BindingNotFound);
        } else if !IsReplacementOf(found.value, p.value, b, b.checkpointVersion) {
          out := Raised(ReadbackMismatch);
        } else {
          out := Returned(b);
        }
      }
      FinishDone(State(), out);
    }

    method Close(plan: Plan, state: SagaState, r: Binding) returns (out: Outcome)
      requires store.Valid()
      modifies store, leases
      ensures store.Valid() && (State(), out) == Finish(old(State()), Drive(DriveLocal(plan, state, r)))
    {
      hide Finish, InstanceTables.AdvanceSaga, Settled, InstanceEffects.Finalize, Recovered, PersistStep, EffectStep, ReadbackStep, VerifyStep,
           CommitStep, ReloadStep, ReloadSuccessorStep, RecoveryCommitStep, ConfirmStep, ConfirmSuccessorStep, ResagaStep;
      var st := state;
      FinishDrive(State(), DriveLocal(plan, st, r));
      if st == ReadbackVerified {
        var advanced := store.AdvanceSaga(plan.key, ReadbackVerified, LocalCommitted);
        if advanced.Err? {
          FinishDone(State(), Raised(advanced.error));
          return Raised(advanced.error);
        }
        st := advanced.value;
      }
      FinishDrive(State(), DriveFinalize(plan, st, r));
      if st == LocalCommitted {
        var finalized := leases.FinalizeLease(LeaseOf(plan));
        if finalized.Err? {
          FinishDone(State(), Raised(finalized.error));
          return Raised(finalized.error);
        }
        FinishDrive(State(), DriveFinish(plan, r));
        var advanced := store.AdvanceSaga(plan.key, LocalCommitted, LeaseFinalized);
        if advanced.Err? {
          FinishDone(State(), Raised(advanced.error));
          return Raised(advanced.error);
        }
        st := advanced.value;
      }
      if !plan.RecoveryPlan? {
        out := Returned(r);
        FinishDone(State(), out);
      } else if st != LeaseFinalized {
        out := Raised(SagaIncomplete);
        FinishDone(State(), out);
      } else {
        out := CheckFidelity(r);
      }
    }

    /** Recovery reloads both rows, commits if nobody has, and confirms the pair. */
    method CommitRecovered(plan: Plan, e: HazelEvent) returns (out: Outcome)
      requires store.Valid() && plan.RecoveryPlan?
      modifies store, leases
      ensures store.Valid() && (State(), out) == Finish(old(State()), Drive(Reload(plan, e)))
    {
      hide Finish, InstanceTables.CommitReplacement, Recovered, PersistStep, EffectStep, ReadbackStep, VerifyStep, CommitStep,
           ConfirmStep, ConfirmSuccessorStep, ResagaStep, LocalStep, FinalizeStep, FinishStep, RecoveryArgs;
      FinishDrive(State(), Reload(plan, e));
      var p := store.Get(plan.p.id);
      if p.Err? {
        FinishDone(State(), Raised(BindingNotFound));
        return Raised(BindingNotFound);
      }
      FinishDrive(State(), ReloadSuccessor(plan, e, p.value));
      var s := store.Get(plan.s.id);
      if s.Err? {
        FinishDone(State(), Raised(BindingNotFound));
        return Raised(BindingNotFound);
      }
      if p.value.status != Checkpointed || s.value.status != Prepared {
        out := ConfirmCommitted(plan);
      } else {
        out := CommitPair(plan, e, p.value, s.value);
      }
    }

    method CommitPair(plan: Plan, e: HazelEvent, p: Binding, s: Binding) returns (out: Outcome)
      requires store.Valid() && plan.RecoveryPlan?
      modifies store, leases
      ensures store.Valid() && (State(), out) == Finish(old(State()), Drive(RecoveryCommit(plan, e, p, s)))
    {
      hide Finish, InstanceTables.CommitReplacement, Recovered, PersistStep, EffectStep, ReadbackStep, VerifyStep, CommitStep, ReloadStep,
           ReloadSuccessorStep, ConfirmStep, ConfirmSuccessorStep, ResagaStep, LocalStep, FinalizeStep, FinishStep, RecoveryArgs;
      FinishDrive(State(), RecoveryCommit(plan, e, p, s));
      var committed := store.CommitReplacement(RecoveryArgs(plan, e, p, s));
      if committed.Err? {
        FinishDone(State(), Raised(committed.error));
        return Raised(committed.error);
      }
      out := ConfirmCommitted(plan);
    }

    method ConfirmCommitted(plan: Plan) returns (out: Outcome)
      requires store.Valid() && plan.RecoveryPlan?
      modifies store, leases
      ensures store.Valid() && (State(), out) == Finish(old(State()), Drive(Confirm(plan)))
    {
      hide Finish, CommittedPair, Recovered, PersistStep, EffectStep, ReadbackStep, VerifyStep, CommitStep, ReloadStep, ReloadSuccessorStep,
           RecoveryCommitStep, LocalStep, FinalizeStep, FinishStep;
      FinishDrive(State(), Confirm(plan));
      var p := store.Get(plan.p.id);
      if p.Err? {
        FinishDone(State(), Raised(BindingNotFound));
        return Raised(BindingNotFound);
      }
      FinishDrive(State(), ConfirmSuccessor(plan, p.value));
      var s := store.Get(plan.s.id);
      if s.Err? {
        FinishDone(State(), Raised(BindingNotFound));
        return Raised(BindingNotFound);
      }
      if !CommittedPair(p.value, s.value) {
        FinishDone(State(), Raised(CommitIncomplete));
        return Raised(CommitIncomplete);
      }
      FinishDrive(State(), Resaga(plan, s.value));
      if plan.key !in store.sagas {
        FinishDone(State(), Raised(SagaNotFound));
        return Raised(SagaNotFound);
      }
      out := Close(plan, store.sagas[plan.key].state, s.value);
    }

    method Commit(plan: Plan, state: SagaState, e: HazelEvent) returns (out: Outcome)
      requires store.Valid() && !plan.RecoveryPlan?
      modifies store, leases
      ensures store.Valid() && (State(), out) == Finish(old(State()), Drive(DriveCommit(plan, state, e)))
    {
      hide Finish, InstanceTables.CommitReplacement, InstanceTables.Transition;
      FinishDrive(State(), DriveCommit(plan, state, e));
      var committed: Result<Binding>;
      if plan.CheckpointPlan? {
        committed := store.Transition(CheckpointArgs(plan, e));
      } else {
        committed := store.CommitReplacement(ReplaceArgs(plan, e));
      }
      if committed.Err? {
        FinishDone(State(), Raised(committed.error));
        return Raised(committed.error);
      }
      out := Close(plan, state, committed.value);
    }

    /** The effect is in Hazel: mark it, read it back, mark that, commit. */
    method Apply(plan: Plan, state: SagaState, e: HazelEvent) returns (out: Outcome)
      requires store.Valid()
      modifies store, leases
      ensures store.Valid() && (State(), out) == Finish(old(State()), Drive(DriveEffect(plan, state, e)))
    {
      hide Finish, InstanceTables.AdvanceSaga;
      var st := state;
      FinishDrive(State(), DriveEffect(plan, st, e));
      if st == LeaseReserved {
        var advanced := store.AdvanceSaga(plan.key, LeaseReserved, EffectApplied);
        if advanced.Err? {
          FinishDone(State(), Raised(advanced.error));
          return Raised(advanced.error);
        }
        st := advanced.value;
      }
      FinishDrive(State(), DriveReadback(plan, st, e));
      var found := hazel.RecoverState(Base(plan).lineage);
      if found.Err? {
        FinishDone(State(), Raised(HazelMissing));
        return Raised(HazelMissing);
      }
      if (plan.RecoveryPlan? && !IsReplacementOf(found.value, plan.p, plan.s, NextVersion(plan))) || found.value != e {
        FinishDone(State(), Raised(ReadbackMismatch));
        return Raised(ReadbackMismatch);
      }
      out := Verify(plan, st, e);
    }

    method Verify(plan: Plan, state: SagaState, e: HazelEvent) returns (out: Outcome)
      requires store.Valid()
      modifies store, leases
      ensures store.Valid() && (State(), out) == Finish(old(State()), Drive(DriveVerify(plan, state, e)))
    {
      hide Finish, InstanceTables.AdvanceSaga;
      var st := state;
      FinishDrive(State(), DriveVerify(plan, st, e));
      if st == EffectApplied {
        var advanced := store.AdvanceSaga(plan.key, EffectApplied, ReadbackVerified);
        if advanced.Err? {
          FinishDone(State(), Raised(advanced.error));
          return Raised(advanced.error);
        }
        st := advanced.value;
      }
      if plan.RecoveryPlan? {
        out := CommitRecovered(plan, e);
      } else {
        out := Commit(plan, st, e);
      }
    }

    /** From a saga row to the end: find or write the Hazel event, then apply it. */
    method DriveSaga(plan: Plan, state: SagaState) returns (out: Outcome)
      requires store.Valid()
      modifies store, hazel, leases
      ensures store.Valid() && (State(), out) == Finish(old(State()), Drive(DriveRecover(plan, state)))
    {
      hide Finish, Persist;
      FinishDrive(State(), DriveRecover(plan, state));
      var found := hazel.RecoverState(Base(plan).lineage);
      if found.Err? {
        FinishDone(State(), Raised(HazelMissing));
        return Raised(HazelMissing);
      }
      var e := found.value;
      if e.version == NextVersion(plan) {
        if !plan.RecoveryPlan? && e.payload != plan.payload {
          FinishDone(State(), Raised(HazelConflict));
          return Raised(HazelConflict);
        }
      } else if e.version == Base(plan).checkpointVersion {
        if plan.RecoveryPlan? && plan.s.status != Prepared {
          FinishDone(State(), Raised(HazelMissing));
          return Raised(HazelMissing);
        }
        var payload := if plan.RecoveryPlan? then RecoveryPayload(plan, e.payload) else plan.payload;
        FinishDrive(State(), DrivePersist(plan, state, payload));
        var persisted := hazel.PersistState(PlannedEvent(plan, payload));
        if persisted.Err? {
          FinishDone(State(), Raised(persisted.error));
          return Raised(persisted.error);
        }
        e := persisted.value;
      } else {
        FinishDone(State(), Raised(HazelVersionConflict));
        return Raised(HazelVersionConflict);
      }
      out := Apply(plan, state, e);
    }
  }

  class OCSInstanceBinder {
    const sagas: SagaRunner

    constructor (sagas: SagaRunner)
      ensures this.sagas == sagas
    {
      this.sagas := sagas;
    }

    /** _ensure_hazel. */
    method EnsureHazel(b: Binding) returns (out: Outcome)
      requires sagas.store.Valid()
      modifies sagas.store, sagas.hazel
      ensures sagas.store.Valid() && (sagas.State(), out) == Finish(old(sagas.State()), Prepare(HazelCheck(b)))
    {
      hide Finish, Persist, InstanceTables.Transition, PersistedArgs, PreparedState, PrepareEvent, LookupStep, GenerationStep, ReserveNewStep,
           CreateNewStep, FinalizeNewStep;
      FinishPrepare(sagas.State(), HazelCheck(b));
      var found := sagas.hazel.RecoverState(b.lineage);
      var e: HazelEvent;
      if found.Ok? {
        e := found.value;
        if e.payload != PreparedState(b) {
          FinishDone(sagas.State(), Raised(HazelConflict));
          return Raised(HazelConflict);
        }
      } else {
        FinishPrepare(sagas.State(), HazelWrite(b));
        var persisted := sagas.hazel.PersistState(PrepareEvent(b));
        if persisted.Err? {
          FinishDone(sagas.State(), Raised(persisted.error));
          return Raised(persisted.error);
        }
        e := persisted.value;
        FinishPrepare(sagas.State(), HazelReadback(b, e));
        var again := sagas.hazel.RecoverState(b.lineage);
        if again.Err? || again.value != e {
          FinishDone(sagas.State(), Raised(ReadbackMismatch));
          return Raised(ReadbackMismatch);
        }
      }
      FinishPrepare(sagas.State(), HazelCommit(b, e));
      var durable := sagas.store.Transition(PersistedArgs(b, e));
      out := if durable.Ok? then Returned(durable.value) else Raised(durable.error);
      FinishDone(sagas.State(), out);
    }

    /** _reconcile_binding_lease; `resume` only says who asks. */
    method ReconcileLease(b: Binding, ghost resume: Resume) returns (r: Result<LeaseState>)
      requires sagas.store.Valid()
      modifies sagas.leases
      ensures sagas.store.Valid()
      ensures Finish(old(sagas.State()), Reconcile(LeaseCheck(b, resume)))
              == match r
                 case Err(e) => (sagas.State(), Raised(e))
                 case Ok(_) => Finish(sagas.State(), Resumed(b, resume))
    {
      hide Finish, Reserve, InstanceEffects.Finalize, Resumed, Settled;
      FinishReconcile(sagas.State(), LeaseCheck(b, resume));
      var current := sagas.leases.LeaseFor(b.leaseId);
      if current.Err? {
        FinishDone(sagas.State(), Raised(LeaseUnknown));
        return Err(LeaseUnknown);
      }
      if current.value.state == LeaseReleased {
        return Ok(LeaseReleased);
      }
      FinishReconcile(sagas.State(), LeaseReserve(b, resume));
      var reserved := sagas.leases.ReserveUse(b.leaseId, b.key, BindUse(b.id));
      if reserved.Err? {
        FinishDone(sagas.State(), Raised(reserved.error));
        return Err(reserved.error);
      }
      FinishReconcile(sagas.State(), LeaseFinalize(b, resume));
      r := sagas.leases.FinalizeLease(b.leaseId);
      if r.Err? {
        FinishDone(sagas.State(), Raised(r.error));
      }
    }

    method PrepareNew(r: Request, now: int) returns (out: Outcome)
      requires sagas.store.Valid()
      modifies sagas.store, sagas.hazel, sagas.leases
      ensures sagas.store.Valid() && (sagas.State(), out) == Finish(old(sagas.State()), Prepare(Validate(r, now)))
    {
      hide Finish, Reserve, InstanceEffects.Finalize, InstanceTables.Create, Settled, LookupStep, HazelCheckStep, HazelWriteStep, HazelReadbackStep,
           TransitionStep, RootBinding;
      FinishPrepare(sagas.State(), Validate(r, now));
      if !LeaseValid(sagas.State(), r, BindAction) {
        FinishDone(sagas.State(), Raised(LeaseRejected));
        return Raised(LeaseRejected);
      }
      FinishPrepare(sagas.State(), Generation(r, now));
      var g := sagas.store.MaxGeneration(r.lineage);
      var b := RootBinding(sagas.State(), r, g + 1, now);
      FinishPrepare(sagas.State(), ReserveNew(b));
      var reserved := sagas.leases.ReserveUse(b.leaseId, b.key, BindUse(b.id));
      if reserved.Err? {
        FinishDone(sagas.State(), Raised(reserved.error));
        return Raised(reserved.error);
      }
      FinishPrepare(sagas.State(), CreateNew(b));
      var stored := sagas.store.Create(b);
      if stored.Err? {
        FinishDone(sagas.State(), Raised(stored.error));
        return Raised(stored.error);
      }
      FinishPrepare(sagas.State(), FinalizeNew(stored.value));
      var finalized := sagas.leases.FinalizeLease(stored.value.leaseId);
      if finalized.Err? {
        FinishDone(sagas.State(), Raised(finalized.error));
        return Raised(finalized.error);
      }
      out := EnsureHazel(stored.value);
    }

    method PrepareInstance(r: Request, now: int) returns (out: Outcome)
      requires sagas.store.Valid()
      modifies sagas.store, sagas.hazel, sagas.leases
      ensures sagas.store.Valid() && (sagas.State(), out) == Finish(old(sagas.State()), Prepare(InstanceProtocol.Lookup(r, now)))
    {
      hide Finish, BootstrapOf, GenerationStep, ReserveNewStep, CreateNewStep, FinalizeNewStep, HazelCheckStep, HazelWriteStep, HazelReadbackStep,
           TransitionStep, Complete;
      FinishPrepare(sagas.State(), InstanceProtocol.Lookup(r, now));
      if !Complete(r) {
        FinishDone(sagas.State(), Raised(RequestInvalid));
        return Raised(RequestInvalid);
      }
      if r.lineage.ocs !in sagas.profiles {
        FinishDone(sagas.State(), Raised(UnknownOcs));
        return Raised(UnknownOcs);
      }
      var found := sagas.store.FindByIdempotency(r.key);
      if found.None? {
        out := PrepareNew(r, now);
        return;
      }
      FinishDone(sagas.State(), Raised(LeaseUnknown));
      FinishDone(sagas.State(), Raised(IdempotencyConflict));
      FinishDone(sagas.State(), Raised(BootstrapMismatch));
      out := PrepareAgain(r, found.value);
    }

    /** The request has a binding already. */
    method PrepareAgain(r: Request, b: Binding) returns (out: Outcome)
      requires sagas.store.Valid()
      modifies sagas.store, sagas.hazel, sagas.leases
      ensures sagas.store.Valid()
      ensures (sagas.State(), out) ==
              if b.leaseId !in old(sagas.leases.leases) then (old(sagas.State()), Raised(LeaseUnknown))
              else if b.request != r then (old(sagas.State()), Raised(IdempotencyConflict))
              else if BootstrapOf(old(sagas.store.bindings), b) != b.bootstrap then (old(sagas.State()), Raised(BootstrapMismatch))
              else Finish(old(sagas.State()), Reconcile(LeaseCheck(b, ResumePrepare)))
    {
      hide Finish, BootstrapOf;
      if b.leaseId !in sagas.leases.leases {
        return Raised(LeaseUnknown);
      }
      if b.request != r {
        return Raised(IdempotencyConflict);
      }
      if BootstrapOf(sagas.store.bindings, b) != b.bootstrap {
        return Raised(BootstrapMismatch);
      }
      var reconciled := ReconcileLease(b, ResumePrepare);
      if reconciled.Err? {
        return Raised(reconciled.error);
      }
      if b.status == Prepared {
        out := EnsureHazel(b);
      } else {
        out := Returned(b);
        FinishDone(sagas.State(), out);
      }
    }

    method ReplayCheckpoint(plan: Plan, r: Binding) returns (out: Outcome)
      requires sagas.store.Valid() && plan.CheckpointPlan?
      modifies sagas.store, sagas.leases
      ensures sagas.store.Valid() && (sagas.State(), out) == Finish(old(sagas.State()), InstanceProtocol.Checkpoint(ReadReplaySaga(plan, r)))
    {
      hide Finish, InstanceTables.AdvanceSaga, ReadBindingStep, ReadReplayStep, ReadSagaStep, ReserveLeaseStep, BeginStep, LeaseValid;
      FinishCheckpoint(sagas.State(), ReadReplaySaga(plan, r));
      if plan.key !in sagas.store.sagas {
        FinishDone(sagas.State(), Raised(SagaNotFound));
        return Raised(SagaNotFound);
      }
      var st := sagas.store.sagas[plan.key].state;
      FinishCheckpoint(sagas.State(), VerifyReplay(plan, st, r));
      if st == EffectApplied {
        var advanced := sagas.store.AdvanceSaga(plan.key, EffectApplied, ReadbackVerified);
        if advanced.Err? {
          FinishDone(sagas.State(), Raised(advanced.error));
          return Raised(advanced.error);
        }
        st := advanced.value;
      }
      out := sagas.Close(plan, st, r);
    }

    method BeginCheckpoint(cmd: CheckpointCmd, b: Binding) returns (out: Outcome)
      requires sagas.store.Valid()
      modifies sagas.store, sagas.hazel, sagas.leases
      ensures sagas.store.Valid() && (sagas.State(), out) == Finish(old(sagas.State()), InstanceProtocol.Checkpoint(ReadSaga(cmd, b)))
    {
      hide Finish, InstanceTables.BeginSaga, Reserve, SagaRow, ReadBindingStep, ReadReplayStep, ReadReplaySagaStep, VerifyReplayStep;
      var plan := CheckpointPlanOf(cmd, b);
      FinishCheckpoint(sagas.State(), ReadSaga(cmd, b));
      if cmd.key in sagas.store.sagas {
        var saga := sagas.store.sagas[cmd.key];
        if saga.binding != b.id || saga.fingerprint != FingerprintOf(plan) {
          FinishDone(sagas.State(), Raised(IdempotencyConflict));
          return Raised(IdempotencyConflict);
        }
        if LeaseOf(plan) !in sagas.leases.leases {
          FinishDone(sagas.State(), Raised(LeaseUnknown));
          return Raised(LeaseUnknown);
        }
        out := sagas.DriveSaga(plan, saga.state);
        return;
      }
      FinishCheckpoint(sagas.State(), ValidateLease(cmd, b));
      if !LeaseValid(sagas.State(), cmd.authority, CheckpointAction) {
        FinishDone(sagas.State(), Raised(LeaseRejected));
        return Raised(LeaseRejected);
      }
      FinishCheckpoint(sagas.State(), ReserveLease(cmd, b));
      var reserved := sagas.leases.ReserveUse(cmd.authority.leaseId, cmd.key, CheckpointUse(b.id, b.checkpointVersion + 1));
      if reserved.Err? {
        FinishDone(sagas.State(), Raised(reserved.error));
        return Raised(reserved.error);
      }
      FinishCheckpoint(sagas.State(), Begin(cmd, b));
      var begun := sagas.store.BeginSaga(cmd.key, SagaRow(plan));
      if begun.Err? {
        FinishDone(sagas.State(), Raised(begun.error));
        return Raised(begun.error);
      }
      out := sagas.DriveSaga(plan, begun.value);
    }

    method CheckpointInstance(cmd: CheckpointCmd) returns (out: Outcome)
      requires sagas.store.Valid()
      modifies sagas.store, sagas.hazel, sagas.leases
      ensures sagas.store.Valid() && (sagas.State(), out) == Finish(old(sagas.State()), InstanceProtocol.Checkpoint(ReadBinding(cmd)))
    {
      hide Finish, ReadReplaySagaStep, VerifyReplayStep, ReadSagaStep, ReserveLeaseStep, BeginStep, LeaseValid, SameCheckpoint;
      FinishCheckpoint(sagas.State(), ReadBinding(cmd));
      var found := sagas.store.Get(cmd.binding);
      if found.Err? {
        FinishDone(sagas.State(), Raised(BindingNotFound));
        return Raised(BindingNotFound);
      }
      var b := found.value;
      if b.status != Active && b.status != Checkpointed {
        FinishDone(sagas.State(), Raised(NotActive));
        return Raised(NotActive);
      }
      if b.platform != Some(cmd.platform) || b.generation != cmd.generation {
        FinishDone(sagas.State(), Raised(WorkerFenced));
        return Raised(WorkerFenced);
      }
      FinishCheckpoint(sagas.State(), ReadReplay(cmd, b));
      var plan := CheckpointPlanOf(cmd, b);
      var replay := sagas.store.FindByKey(cmd.key);
      if replay.None? {
        if cmd.authority.lineage != b.lineage {
          FinishDone(sagas.State(), Raised(ScopeMismatch));
          return Raised(ScopeMismatch);
        }
        out := BeginCheckpoint(cmd, b);
        return;
      }
      if !SameCheckpoint(replay.value, b.id, FingerprintOf(plan)) {
        FinishDone(sagas.State(), Raised(IdempotencyConflict));
        return Raised(IdempotencyConflict);
      }
      var row := sagas.store.Get(b.id);
      out := ReplayCheckpoint(plan, row.value);
    }

    /** The predecessor is REPLACED already: reconcile the lease, finish the saga under the key. */
    method ReplaceAgain(cmd: ReplaceCmd, s: Binding) returns (out: Outcome)
      requires sagas.store.Valid()
      modifies sagas.store, sagas.leases
      ensures sagas.store.Valid()
      ensures (sagas.State(), out) == Finish(old(sagas.State()), Reconcile(LeaseCheck(s, ResumeReplace(cmd))))
    {
      hide Finish, InstanceTables.AdvanceSaga, ReadPreviousStep, ReadExistingStep, ReadReplacementSagaStep, ReadPriorStep, ReserveReplacementStep,
           BeginReplacementStep, CreateSuccessorStep, LeaseValid;
      var reconciled := ReconcileLease(s, ResumeReplace(cmd));
      if reconciled.Err? {
        return Raised(reconciled.error);
      }
      FinishReplace(sagas.State(), ReadDoneSaga(cmd, s));
      if cmd.key in sagas.store.sagas && sagas.store.sagas[cmd.key].state == LocalCommitted {
        FinishReplace(sagas.State(), FinishDoneSaga(cmd, s));
        var advanced := sagas.store.AdvanceSaga(cmd.key, LocalCommitted, LeaseFinalized);
        if advanced.Err? {
          FinishDone(sagas.State(), Raised(advanced.error));
          return Raised(advanced.error);
        }
      }
      out := Returned(s);
      FinishDone(sagas.State(), out);
    }

    method CreateAndDrive(cmd: ReplaceCmd, p: Binding, prior: HazelEvent, st: SagaState) returns (out: Outcome)
      requires sagas.store.Valid()
      modifies sagas.store, sagas.hazel, sagas.leases
      ensures sagas.store.Valid()
      ensures (sagas.State(), out) == Finish(old(sagas.State()), InstanceProtocol.Replace(CreateSuccessor(cmd, p, prior, st)))
    {
      hide Finish, InstanceTables.Create, SuccessorBinding, ReplacePlanOf, ReadPreviousStep, ReadExistingStep, ReadReplacementSagaStep,
           ReadPriorStep, ReserveReplacementStep, BeginReplacementStep, FinishDoneSagaStep, LeaseValid;
      FinishReplace(sagas.State(), CreateSuccessor(cmd, p, prior, st));
      var lease := sagas.leases.LeaseFor(cmd.request.leaseId);
      if lease.Err? {
        FinishDone(sagas.State(), Raised(LeaseUnknown));
        return Raised(LeaseUnknown);
      }
      var next := sagas.store.Create(SuccessorBinding(p, cmd.request, lease.value.authorityRef, cmd.now));
      if next.Err? {
        FinishDone(sagas.State(), Raised(next.error));
        return Raised(next.error);
      }
      out := sagas.DriveSaga(ReplacePlanOf(cmd, p, next.value, prior), st);
    }

    /** Hazel is read before the use is reserved and the saga begun. */
    method BeginReplacementSaga(cmd: ReplaceCmd, p: Binding, seen: Option<SagaState>) returns (out: Outcome)
      requires sagas.store.Valid()
      modifies sagas.store, sagas.hazel, sagas.leases
      ensures sagas.store.Valid()
      ensures (sagas.State(), out) == Finish(old(sagas.State()), InstanceProtocol.Replace(ReadPrior(cmd, p, seen)))
    {
      hide Finish, InstanceTables.BeginSaga, Reserve, ReplacementRow, ReadPreviousStep, ReadExistingStep, ReadReplacementSagaStep,
           CreateSuccessorStep, FinishDoneSagaStep, LeaseValid;
      FinishReplace(sagas.State(), ReadPrior(cmd, p, seen));
      var prior := sagas.hazel.RecoverState(p.lineage);
      if prior.Err? {
        FinishDone(sagas.State(), Raised(HazelMissing));
        return Raised(HazelMissing);
      }
      if seen.Some? {
        out := CreateAndDrive(cmd, p, prior.value, seen.value);
        return;
      }
      FinishReplace(sagas.State(), ReserveReplacement(cmd, p, prior.value));
      var reserved := sagas.leases.ReserveUse(cmd.request.leaseId, cmd.request.key, BindUse(BindingOf(cmd.request)));
      if reserved.Err? {
        FinishDone(sagas.State(), Raised(reserved.error));
        return Raised(reserved.error);
      }
      FinishReplace(sagas.State(), BeginReplacement(cmd, p, prior.value));
      var begun := sagas.store.BeginSaga(cmd.key, ReplacementRow(cmd, p));
      if begun.Err? {
        FinishDone(sagas.State(), Raised(begun.error));
        return Raised(begun.error);
      }
      out := CreateAndDrive(cmd, p, prior.value, begun.value);
    }

    method ReplaceCheckpointed(cmd: ReplaceCmd, p: Binding) returns (out: Outcome)
      requires sagas.store.Valid()
      modifies sagas.store, sagas.hazel, sagas.leases
      ensures sagas.store.Valid()
      ensures (sagas.State(), out) == Finish(old(sagas.State()), InstanceProtocol.Replace(ReadReplacementSaga(cmd, p)))
    {
      hide Finish, ReplacementFingerprintOf, ReadPreviousStep, ReadExistingStep, ReadPriorStep, ReserveReplacementStep,
           BeginReplacementStep, CreateSuccessorStep, FinishDoneSagaStep;
      FinishReplace(sagas.State(), ReadReplacementSaga(cmd, p));
      if cmd.key in sagas.store.sagas {
        var saga := sagas.store.sagas[cmd.key];
        if saga.binding != p.id || saga.fingerprint != ReplacementFingerprintOf(cmd, p) {
          FinishDone(sagas.State(), Raised(IdempotencyConflict));
          return Raised(IdempotencyConflict);
        }
        if cmd.request.leaseId !in sagas.leases.leases {
          FinishDone(sagas.State(), Raised(LeaseUnknown));
          return Raised(LeaseUnknown);
        }
        out := BeginReplacementSaga(cmd, p, Some(saga.state));
        return;
      }
      FinishReplace(sagas.State(), ValidateReplacement(cmd, p));
      if !LeaseValid(sagas.State(), cmd.request, BindAction) {
        FinishDone(sagas.State(), Raised(LeaseRejected));
        return Raised(LeaseRejected);
      }
      out := BeginReplacementSaga(cmd, p, None);
    }

    method ReplaceInstance(cmd: ReplaceCmd) returns (out: Outcome)
      requires sagas.store.Valid()
      modifies sagas.store, sagas.hazel, sagas.leases
      ensures sagas.store.Valid() && (sagas.State(), out) == Finish(old(sagas.State()), InstanceProtocol.Replace(ReadPrevious(cmd)))
    {
      hide Finish, BootstrapOf, ReadReplacementSagaStep, ReadPriorStep, ReserveReplacementStep, BeginReplacementStep, CreateSuccessorStep,
           FinishDoneSagaStep, LeaseValid, Complete;
      FinishReplace(sagas.State(), ReadPrevious(cmd));
      if !Complete(cmd.request) {
        FinishDone(sagas.State(), Raised(RequestInvalid));
        return Raised(RequestInvalid);
      }
      var found := sagas.store.Get(cmd.binding);
      if found.Err? {
        FinishDone(sagas.State(), Raised(BindingNotFound));
        return Raised(BindingNotFound);
      }
      var p := found.value;
      FinishReplace(sagas.State(), ReadExisting(cmd, p));
      var replayed := sagas.store.FindByIdempotency(cmd.request.key);
      var refused := Refused(cmd, p, replayed);
      if refused.Some? {
        FinishDone(sagas.State(), Raised(refused.value));
        return Raised(refused.value);
      }
      if p.status == Replaced {
        out := ReplaceAgain(cmd, replayed.value);
      } else {
        out := ReplaceCheckpointed(cmd, p);
      }
    }

    /** The guards of replace_instance, in the order of the source. */
    function Refused(cmd: ReplaceCmd, p: Binding, replayed: Option<Binding>): (e: Option<Error>)
      reads sagas.store, sagas.leases
      ensures e.None? && p.status == Replaced ==> replayed.Some?
    {
      if p.status == Replaced then
        if replayed.None? || replayed.value.predecessor != Some(p.id) || replayed.value.request != cmd.request then Some(IdempotencyConflict)
        else if replayed.value.leaseId !in sagas.leases.leases then Some(LeaseUnknown)
        else if BootstrapOf(sagas.store.bindings, replayed.value) != replayed.value.bootstrap then Some(BootstrapMismatch)
        else None
      else if p.status != Checkpointed then Some(CheckpointRequired)
      else if p.platform != Some(cmd.platform) || p.generation != cmd.generation then Some(WorkerFenced)
      else if cmd.request.lineage != p.lineage then Some(ScopeMismatch)
      else if cmd.request.causation != p.eventHash then Some(CausationMismatch)
      else if p.lineage.ocs !in sagas.profiles || sagas.profiles[p.lineage.ocs] != p.profile then Some(ProfileDrift)
      else if p.leaseId !in sagas.leases.leases then Some(LeaseUnknown)
      else None
    }
  }

  class OCSInstanceRecovery {
    const sagas: SagaRunner

    constructor (sagas: SagaRunner)
      ensures this.sagas == sagas
    {
      this.sagas := sagas;
    }

    /** SELECT .. ORDER BY generation DESC LIMIT 1. */
    method Latest(l: Lineage) returns (r: Option<Binding>)
      requires sagas.store.Valid()
      ensures r == LatestBinding(sagas.store.bindings, l)
    {
      hide LatestBinding, UniqueKeys, UniqueGenerations;
      var bs := sagas.store.bindings;
      LatestIsNewest(bs, l);
      if id :| id in bs && bs[id].lineage == l && forall i :: i in bs && bs[i].lineage == l ==> bs[i].generation <= bs[id].generation {
        r := Some(bs[id]);
        NewestIsLatest(bs, id);
      } else {
        r := None;
      }
    }

    lemma LatestIsNewest(bs: map<BindingId, Binding>, l: Lineage)
      ensures LatestBinding(bs, l).Some? ==>
                exists id :: id in bs && bs[id].lineage == l && forall i :: i in bs && bs[i].lineage == l ==> bs[i].generation <= bs[id].generation
    {
      hide IsLatest;
      if LatestBinding(bs, l).Some? {
        var id :| id in bs && bs[id].lineage == l && IsLatest(bs, bs[id]);
        LatestTops(bs, id);
      }
    }

    lemma LatestTops(bs: map<BindingId, Binding>, id: BindingId)
      requires id in bs && IsLatest(bs, bs[id])
      ensures forall i :: i in bs && bs[i].lineage == bs[id].lineage ==> bs[i].generation <= bs[id].generation
    {
    }

    lemma NewestIsLatest(bs: map<BindingId, Binding>, id: BindingId)
      requires UniqueGenerations(bs) && id in bs
      requires forall i :: i in bs && bs[i].lineage == bs[id].lineage ==> bs[i].generation <= bs[id].generation
      ensures LatestBinding(bs, bs[id].lineage) == Some(bs[id])
    {
      var l := bs[id].lineage;
      assert bs[id].generation > 0 ==> GenerationTaken(bs, l, bs[id].generation);
      assert IsLatest(bs, bs[id]);
      forall i | i in bs && bs[i].lineage == l && IsLatest(bs, bs[i]) ensures i == id {
        assert bs[i].generation <= bs[id].generation && bs[id].generation <= bs[i].generation;
      }
    }

    method ReconcileReplacement(s: Binding) returns (out: Outcome)
      requires sagas.store.Valid()
      modifies sagas.store, sagas.hazel, sagas.leases
      ensures sagas.store.Valid() && (sagas.State(), out) == Finish(old(sagas.State()), Recover(ReadPredecessor(s)))
    {
      hide Finish, ReadLatestStep, CountActiveStep, ReadStrandedStep, FidelityStep, FidelityPredecessorStep;
      FinishRecover(sagas.State(), ReadPredecessor(s));
      if s.predecessor.None? {
        FinishDone(sagas.State(), Raised(BindingNotFound));
        return Raised(BindingNotFound);
      }
      var p := sagas.store.Get(s.predecessor.value);
      if p.Err? {
        FinishDone(sagas.State(), Raised(BindingNotFound));
        return Raised(BindingNotFound);
      }
      FinishRecover(sagas.State(), ReadRecentSaga(p.value, s));
      var key := RecentSaga(sagas.store.Contents(), p.value.id);
      if key.None? {
        FinishDone(sagas.State(), Raised(SagaMissing));
        return Raised(SagaMissing);
      }
      var saga := sagas.store.sagas[key.value];
      if saga.leaseId != s.leaseId {
        FinishDone(sagas.State(), Raised(LeaseMismatch));
        return Raised(LeaseMismatch);
      }
      var lease := sagas.leases.LeaseFor(saga.leaseId);
      if lease.Err? {
        FinishDone(sagas.State(), Raised(LeaseUnknown));
        return Raised(LeaseUnknown);
      }
      if lease.value.authorityRef != s.authorityRef {
        FinishDone(sagas.State(), Raised(LeaseMismatch));
        return Raised(LeaseMismatch);
      }
      out := sagas.DriveSaga(RecoveryPlan(p.value, s, key.value, saga.leaseId), saga.state);
    }

    method RecoverInstance(l: Lineage) returns (out: Outcome)
      requires sagas.store.Valid()
      modifies sagas.store, sagas.hazel, sagas.leases
      ensures sagas.store.Valid() && (sagas.State(), out) == Finish(old(sagas.State()), Recover(ReadLatest(l)))
    {
      hide Finish, LatestBinding, LocalIdentity, ReadPredecessorStep, ReadRecentSagaStep, FidelityStep, FidelityPredecessorStep;
      FinishRecover(sagas.State(), ReadLatest(l));
      var latest := Latest(l);
      if latest.None? {
        FinishDone(sagas.State(), Raised(BindingNotFound));
        return Raised(BindingNotFound);
      }
      var b := latest.value;
      if !LocalIdentity(sagas.State(), b) {
        FinishDone(sagas.State(), Raised(ProfileDrift));
        return Raised(ProfileDrift);
      }
      FinishRecover(sagas.State(), CountActive(b));
      var bs := sagas.store.bindings;
      if i, j :| i in bs && bs[i].lineage == b.lineage && bs[i].status == Active
                 && j in bs && bs[j].lineage == b.lineage && bs[j].status == Active && i != j {
        FinishDone(sagas.State(), Raised(MultipleActive));
        return Raised(MultipleActive);
      }
      if b.predecessor.Some? {
        out := ReconcileReplacement(b);
        return;
      }
      FinishRecover(sagas.State(), ReadStranded(b));
      var key := RecentSaga(sagas.store.Contents(), b.id);
      if key.Some? && sagas.store.sagas[key.value].state != LeaseFinalized {
        FinishDone(sagas.State(), Raised(SuccessorMissing));
        return Raised(SuccessorMissing);
      }
      out := sagas.CheckFidelity(b);
    }
  }

  class WorkInstanceBridge {
    const sagas: SagaRunner

    constructor (sagas: SagaRunner)
      ensures this.sagas == sagas
    {
      this.sagas := sagas;
    }

    method Attach(a: AttachCmd) returns (out: Outcome)
      requires sagas.store.Valid()
      modifies sagas.store
      ensures sagas.store.Valid() && (sagas.State(), out) == Finish(old(sagas.State()), Bridge(AttachCommit(a)))
    {
      hide Finish, InstanceTables.Transition, AttachArgs;
      FinishBridge(sagas.State(), AttachCommit(a));
      if a.platform == "" || a.task == "" || !a.taskMatches {
        out := Raised(TaskMismatch);
      } else {
        var bound := sagas.store.Transition(AttachArgs(a));
        out := if bound.Ok? then Returned(bound.value) else Raised(bound.error);
      }
      FinishDone(sagas.State(), out);
    }

    method Acknowledge(a: Ack) returns (out: Outcome)
      requires sagas.store.Valid()
      modifies sagas.store
      ensures sagas.store.Valid() && (sagas.State(), out) == Finish(old(sagas.State()), Bridge(AckRead(a)))
    {
      hide Finish, InstanceTables.Transition, AckArgs;
      FinishBridge(sagas.State(), AckRead(a));
      var found := sagas.store.Get(a.binding);
      if found.Err? {
        out := Raised(BindingNotFound);
      } else {
        var b := found.value;
        if b.status != Bound || b.platform != Some(a.platform) || b.generation != a.generation
           || b.bootstrap != a.bootstrap || !a.challengePassed {
          out := Raised(AckMismatch);
        } else {
          FinishBridge(sagas.State(), AckCommit(a, b));
          var active := sagas.store.Transition(AckArgs(a));
          out := if active.Ok? then Returned(active.value) else Raised(active.error);
        }
      }
      FinishDone(sagas.State(), out);
    }
  }
}
