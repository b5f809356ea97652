/**
 When a checkpoint returns at all: an undisturbed call under a fresh key succeeds
 exactly when the caller's view of the binding is current, its lease has a use
 left, and Hazel holds nothing but the committed checkpoint or this very one.
 */
module InstanceCheckpointReturns {
  import opened Prelude
  import opened InstanceContracts
  import opened InstanceTables
  import opened InstanceEffects
  import opened InstanceProtocol
  import opened InstanceChain
  import opened InstanceInvariant
  import opened InstanceCalls
  import opened InstanceFinish
  import opened InstanceCheckpointing
  import opened InstanceCheckpointOutcome

  /** The caller is the worker, in scope, and holds a usable lease. */
  predicate Admitted(w: World, cmd: CheckpointCmd, b: Binding) {
    && b.status in {Active, Checkpointed}
    && b.platform == Some(cmd.platform) && b.generation == cmd.generation
    && cmd.authority.lineage == b.lineage
    && LeaseValid(w, cmd.authority, CheckpointAction)
  }

  /** The lease has a use left, or has already given this key one for the same version. */
  predicate UseLeft(w: World, cmd: CheckpointCmd, b: Binding) {
    && cmd.authority.leaseId in w.leases
    && var l := w.leases[cmd.authority.leaseId];
    if cmd.key in l.reservations then l.reservations[cmd.key] == CheckpointUse(b.id, b.checkpointVersion + 1)
    else l.used < l.maxUses
  }

  /** Hazel is at the committed checkpoint, or one ahead with the very state to be written. */
  predicate Room(h: Logs, cmd: CheckpointCmd, b: Binding) {
    var log := Run(h, b.lineage);
    |log| == b.checkpointVersion || (log != [] && Last(log).payload == CheckpointPayloadOf(b, cmd.state))
  }

  predicate Possible(w: World, cmd: CheckpointCmd) {
    && cmd.binding in w.t.bindings
    && var b := w.t.bindings[cmd.binding];
    Admitted(w, cmd, b) && UseLeft(w, cmd, b) && Room(w.hazel, cmd, b) && cmd.expected == b.version
  }

  lemma Admits(w: World, cmd: CheckpointCmd, b: Binding)
    requires Keyed(w, cmd.binding) && cmd.binding in w.t.bindings && w.t.bindings[cmd.binding] == b
    requires InstanceTables.Lookup(w.t.journal, cmd.key).None? && cmd.key !in w.t.sagas
    ensures Finish(w, Entry(cmd)).1.Returned? ==> Admitted(w, cmd, b)
    ensures Admitted(w, cmd, b) ==> Finish(w, Entry(cmd)) == Finish(w, Checkpoint(ReserveLease(cmd, b)))
  {
    hide Finish, LeaseValid, CheckpointPlanOf;
    FinishCheckpoint(w, ReadBinding(cmd));
    FinishCheckpoint(w, ReadReplay(cmd, b));
    FinishCheckpoint(w, ReadSaga(cmd, b));
    FinishCheckpoint(w, ValidateLease(cmd, b));
    var r := ReadBindingStep(w, cmd).1;
    if r.Done? { FinishDone(w, r.outcome); }
    FinishDone(w, Raised(ScopeMismatch));
    FinishDone(w, Raised(LeaseRejected));
  }

  lemma ReserveSucceeds(w: World, cmd: CheckpointCmd, b: Binding)
    requires Admitted(w, cmd, b)
    ensures var r := Reserve(w.leases, cmd.authority.leaseId, cmd.key, CheckpointUse(b.id, b.checkpointVersion + 1));
            r.Ok? <==> UseLeft(w, cmd, b)
  {
  }

  /** The world in which the saga has been begun. */
  function Started(w: World, cmd: CheckpointCmd, b: Binding, ls: Leases): World {
    w.(leases := ls, t := PutSaga(w.t, cmd.key, SagaRow(CheckpointPlanOf(cmd, b))))
  }

  lemma Starts(w: World, cmd: CheckpointCmd, b: Binding)
    requires Admitted(w, cmd, b) && cmd.key !in w.t.sagas && b.id in w.t.bindings
    ensures var r := Reserve(w.leases, cmd.authority.leaseId, cmd.key, CheckpointUse(b.id, b.checkpointVersion + 1));
            if r.Ok? then Finish(w, Checkpoint(ReserveLease(cmd, b)))
                          == Finish(Started(w, cmd, b, r.value), Drive(DriveRecover(CheckpointPlanOf(cmd, b), LeaseReserved)))
            else Finish(w, Checkpoint(ReserveLease(cmd, b))).1.Raised?
  {
    hide Finish, Reserve, Admitted;
    var r := Reserve(w.leases, cmd.authority.leaseId, cmd.key, CheckpointUse(b.id, b.checkpointVersion + 1));
    FinishCheckpoint(w, ReserveLease(cmd, b));
    if r.Ok? {
      FinishCheckpoint(w.(leases := r.value), Begin(cmd, b));
    } else {
      FinishDone(w, Raised(r.error));
    }
  }

  /** What the saga driver starts from: Hazel backs the row, and the saga is at `st`. */
  ghost predicate Ready(w: World, cmd: CheckpointCmd, b: Binding, st: SagaState) {
    && LogOk(b.lineage, Run(w.hazel, b.lineage))
    && BackedOk(b, Run(w.hazel, b.lineage)) && Holder(b) && b.status != Prepared
    && cmd.key in w.t.sagas && w.t.sagas[cmd.key].state == st
  }

  function SagaAt(w: World, key: Key, st: SagaState): World
    requires key in w.t.sagas
  {
    w.(t := PutSaga(w.t, key, w.t.sagas[key].(state := st)))
  }

  /** With Hazel at the right version, the driver comes to the commit. */
  lemma Drives(w: World, cmd: CheckpointCmd, b: Binding, e: HazelEvent)
    requires cmd.key in w.t.sagas && w.t.sagas[cmd.key].state == LeaseReserved
    requires Run(w.hazel, b.lineage) != [] && Last(Run(w.hazel, b.lineage)) == e
    ensures Finish(w, Drive(DriveEffect(CheckpointPlanOf(cmd, b), LeaseReserved, e)))
            == Finish(SagaAt(SagaAt(w, cmd.key, EffectApplied), cmd.key, ReadbackVerified),
                      Drive(DriveCommit(CheckpointPlanOf(cmd, b), ReadbackVerified, e)))
  {
    hide Finish;
    var plan := CheckpointPlanOf(cmd, b);
    var w1 := SagaAt(w, cmd.key, EffectApplied);
    FinishDrive(w, DriveEffect(plan, LeaseReserved, e));
    FinishDrive(w1, DriveReadback(plan, EffectApplied, e));
    FinishDrive(w1, DriveVerify(plan, EffectApplied, e));
  }

  /** The world once Hazel has the checkpoint. */
  function Persisted(w: World, cmd: CheckpointCmd, b: Binding): World {
    var log := Run(w.hazel, b.lineage);
    if |log| == b.checkpointVersion
    then w.(hazel := w.hazel[b.lineage := log + [PlannedEvent(CheckpointPlanOf(cmd, b), CheckpointPayloadOf(b, cmd.state))]])
    else w
  }

  lemma Writes(w: World, cmd: CheckpointCmd, b: Binding)
    requires Ready(w, cmd, b, LeaseReserved)
    ensures var log := Run(Persisted(w, cmd, b).hazel, b.lineage);
            if Room(w.hazel, cmd, b)
            then log != [] && Finish(w, Drive(DriveRecover(CheckpointPlanOf(cmd, b), LeaseReserved)))
                              == Finish(Persisted(w, cmd, b), Drive(DriveEffect(CheckpointPlanOf(cmd, b), LeaseReserved, Last(log))))
            else Finish(w, Drive(DriveRecover(CheckpointPlanOf(cmd, b), LeaseReserved))).1.Raised?
  {
    hide Finish, AdvanceSaga;
    var plan, log := CheckpointPlanOf(cmd, b), Run(w.hazel, b.lineage);
    FinishDrive(w, DriveRecover(plan, LeaseReserved));
    assert Last(log).version == |log|;
    if |log| == b.checkpointVersion {
      assert Accepts(log, PlannedEvent(plan, plan.payload));
      FinishDrive(w, DrivePersist(plan, LeaseReserved, plan.payload));
      assert Run(Persisted(w, cmd, b).hazel, b.lineage) == log + [PlannedEvent(plan, plan.payload)];
    } else if !Room(w.hazel, cmd, b) {
      FinishDone(w, Raised(HazelConflict));
    }
  }

  /** From the commit on, only the expected version can fail. */
  lemma Commits(w: World, cmd: CheckpointCmd, b: Binding, e: HazelEvent)
    requires b.id in w.t.bindings && w.t.bindings[b.id] == b && b.status in {Active, Checkpointed}
    requires InstanceTables.Lookup(w.t.journal, cmd.key).None?
    requires cmd.key in w.t.sagas && w.t.sagas[cmd.key].state == ReadbackVerified
    requires cmd.authority.leaseId in w.leases && w.leases[cmd.authority.leaseId].state == LeaseConsumed
    ensures Finish(w, Drive(DriveCommit(CheckpointPlanOf(cmd, b), ReadbackVerified, e))).1.Returned? <==> cmd.expected == b.version
  {
    hide Finish, PlatformTaken, FingerprintOf, CheckpointPayloadOf;
    var plan := CheckpointPlanOf(cmd, b);
    var a := CheckpointArgs(plan, e);
    FinishDrive(w, DriveCommit(plan, ReadbackVerified, e));
    if cmd.expected == b.version {
      var r := Transition(w.t, a).value;
      Closes(w.(t := r.0), cmd, plan, r.1);
    } else {
      FinishDone(w, Raised(VersionConflict));
    }
  }

  lemma Closes(w: World, cmd: CheckpointCmd, plan: Plan, r: Binding)
    requires PlanLike(plan, cmd) && cmd.key in w.t.sagas && w.t.sagas[cmd.key].state == ReadbackVerified
    requires cmd.authority.leaseId in w.leases && w.leases[cmd.authority.leaseId].state == LeaseConsumed
    ensures Finish(w, Drive(DriveLocal(plan, ReadbackVerified, r))).1 == Returned(r)
  {
    hide Finish, Recovered, PersistStep, EffectStep, ReadbackStep, VerifyStep, CommitStep, ReloadStep, ReloadSuccessorStep, RecoveryCommitStep,
         ConfirmStep, ConfirmSuccessorStep, ResagaStep;
    var w1 := SagaAt(w, cmd.key, LocalCommitted);
    FinishDrive(w, DriveLocal(plan, ReadbackVerified, r));
    FinishDrive(w1, DriveFinalize(plan, LocalCommitted, r));
    var w2 := w1.(leases := Finalize(w1.leases, cmd.authority.leaseId).value);
    FinishDrive(w2, DriveFinish(plan, r));
    FinishDone(SagaAt(w2, cmd.key, LeaseFinalized), Returned(r));
  }

  lemma ReadyOf(w: World, cmd: CheckpointCmd, b: Binding, ls: Leases)
    requires Inv(w) && cmd.binding in w.t.bindings && w.t.bindings[cmd.binding] == b && b.status in {Active, Checkpointed}
    ensures Ready(Started(w, cmd, b, ls), cmd, b, LeaseReserved)
  {
    hide Inv, LinkOk, LogOk, CheckpointPlanOf;
    RowFact(w, cmd.binding);
    LogFact(w, b.lineage);
  }

  lemma LogFact(w: World, l: Lineage)
    requires Inv(w)
    ensures LogOk(l, Run(w.hazel, l))
  {
    hide LeasesOk, Chain, JournalOk, SagasOk, RecentOk, Driven, Named, Backed, LogOk;
    if l !in w.hazel {
      NoLog(l);
    }
  }

  lemma NoLog(l: Lineage)
    ensures LogOk(l, [])
  {
  }

  lemma ReservedIsConsumed(ls: Leases, id: string, key: Key, use: ActionId)
    requires LeasesOk(ls) && Reserve(ls, id, key, use).Ok?
    ensures var ls' := Reserve(ls, id, key, use).value; id in ls' && ls'[id].state == LeaseConsumed
  {
    assert LeaseOk(ls[id]);
    if key in ls[id].reservations {
      assert ls[id].reservations != map[];
      assert |ls[id].reservations| > 0;
    }
  }

  /** Under a fresh key, an undisturbed checkpoint returns exactly when it is possible. */
  lemma CheckpointReturnsExactlyWhen(w: World, cmd: CheckpointCmd)
    requires Inv(w) && InstanceTables.Lookup(w.t.journal, cmd.key).None? && cmd.key !in w.t.sagas
    ensures Finish(w, Entry(cmd)).1.Returned? <==> Possible(w, cmd)
  {
    hide Inv, Finish, Admitted, UseLeft, Room, Ready, Reserve, LeasesOk;
    if cmd.binding !in w.t.bindings {
      Untouched(w, cmd);
    } else {
      var b := w.t.bindings[cmd.binding];
      SeenRow(w, cmd.binding);
      Admits(w, cmd, b);
      if Admitted(w, cmd, b) {
        ReserveSucceeds(w, cmd, b);
        Starts(w, cmd, b);
        if UseLeft(w, cmd, b) {
          FromStart(w, cmd, b);
        }
      }
    }
  }

  lemma FromStart(w: World, cmd: CheckpointCmd, b: Binding)
    requires Inv(w) && InstanceTables.Lookup(w.t.journal, cmd.key).None? && cmd.key !in w.t.sagas
    requires cmd.binding in w.t.bindings && w.t.bindings[cmd.binding] == b && b.id == cmd.binding
    requires Admitted(w, cmd, b)
    requires Reserve(w.leases, cmd.authority.leaseId, cmd.key, CheckpointUse(b.id, b.checkpointVersion + 1)).Ok?
    ensures var ls := Reserve(w.leases, cmd.authority.leaseId, cmd.key, CheckpointUse(b.id, b.checkpointVersion + 1)).value;
            Finish(Started(w, cmd, b, ls), Drive(DriveRecover(CheckpointPlanOf(cmd, b), LeaseReserved))).1.Returned?
            <==> Room(w.hazel, cmd, b) && cmd.expected == b.version
  {
    hide Inv, Finish, Room, Ready, Reserve, LeasesOk, CheckpointPlanOf, LeaseValid;
    var use := CheckpointUse(b.id, b.checkpointVersion + 1);
    var ls := Reserve(w.leases, cmd.authority.leaseId, cmd.key, use).value;
    var w1 := Started(w, cmd, b, ls);
    InvLeases(w);
    ReservedIsConsumed(w.leases, cmd.authority.leaseId, cmd.key, use);
    ReadyOf(w, cmd, b, ls);
    Writes(w1, cmd, b);
    SameHazel(w, cmd, b, ls);
    if Room(w.hazel, cmd, b) {
      var w2 := Persisted(w1, cmd, b);
      var e := Last(Run(w2.hazel, b.lineage));
      BegunAt(w, cmd, b, ls);
      Drives(w2, cmd, b, e);
      Commits(SagaAt(SagaAt(w2, cmd.key, EffectApplied), cmd.key, ReadbackVerified), cmd, b, e);
    }
  }

  lemma SameHazel(w: World, cmd: CheckpointCmd, b: Binding, ls: Leases)
    ensures Room(Started(w, cmd, b, ls).hazel, cmd, b) <==> Room(w.hazel, cmd, b)
  {
  }

  lemma BegunAt(w: World, cmd: CheckpointCmd, b: Binding, ls: Leases)
    ensures var w2 := Persisted(Started(w, cmd, b, ls), cmd, b);
            && cmd.key in w2.t.sagas && w2.t.sagas[cmd.key].state == LeaseReserved && w2.leases == ls
            && w2.t.bindings == w.t.bindings && w2.t.journal == w.t.journal
  {
  }
}
