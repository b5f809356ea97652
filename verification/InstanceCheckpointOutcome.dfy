/**
 What a checkpoint that returns has done: Hazel moved by at most the one event
 after the committed checkpoint, the journal gained one CHECKPOINTED row, the
 saga is finalized and its lease settled.
 */
module InstanceCheckpointOutcome {
  import opened Prelude
  import opened InstanceContracts
  import opened InstanceTables
  import opened InstanceEffects
  import opened InstanceProtocol
  import opened InstanceChain
  import opened InstanceInvariant
  import opened InstanceCalls
  import opened InstanceFinish
  import opened InstanceCheckpointing

  /** Hazel is as it was, or has accepted one event more, the last of the run `l`. */
  predicate Grew(h0: Logs, h: Logs, l: Lineage) {
    h == h0 || (Run(h, l) != [] && Last(Run(h, l)).run == l && Persist(h0, Last(Run(h, l))) == Ok(h))
  }

  /** Nothing is committed yet. */
  ghost predicate Before(w0: World, w: World, b: Binding) {
    w.t.bindings == w0.t.bindings && w.t.journal == w0.t.journal && Grew(w0.hazel, w.hazel, b.lineage)
  }

  /** The last event of the run is the checkpoint the row now shows. */
  predicate Shows(h: Logs, cmd: CheckpointCmd, b: Binding, r: Binding) {
    && Run(h, b.lineage) != []
    && var e := Last(Run(h, b.lineage));
    && e.version == b.checkpointVersion + 1
    && e.payload == CheckpointPayload(b.id, b.generation, cmd.state)
    && r == b.(status := Checkpointed, version := b.version + 1, checkpointVersion := b.checkpointVersion + 1,
               checkpoint := Some(e.payload), eventHash := Some(Sha(e)))
  }

  predicate IsCheckpointRow(x: JournalEvent, cmd: CheckpointCmd, b: Binding) {
    && x.binding == b.id && x.kind == InstanceCheckpointed && x.key == cmd.key
    && x.from == Some(b.status) && x.to == Checkpointed && x.version == b.version + 1
  }

  /** The checkpoint is committed: one row, one journal row, at most one Hazel event. */
  ghost predicate After(w0: World, w: World, cmd: CheckpointCmd, b: Binding, r: Binding) {
    && w.t.bindings == w0.t.bindings[cmd.binding := r]
    && (exists x :: w.t.journal == w0.t.journal + [x] && IsCheckpointRow(x, cmd, b))
    && Grew(w0.hazel, w.hazel, b.lineage)
    && Shows(w.hazel, cmd, b, r)
  }

  ghost predicate DriveStory(w0: World, w: World, cmd: CheckpointCmd, b: Binding, pc: DrivePc) {
    match pc
    case DriveRecover(plan, st) => plan.CheckpointPlan? && plan.b == b && Before(w0, w, b) && w.hazel == w0.hazel && Rank(st) <= 2
    case DrivePersist(plan, st, _) => plan.CheckpointPlan? && plan.b == b && Before(w0, w, b) && w.hazel == w0.hazel && Rank(st) <= 2
    case DriveEffect(plan, st, e) => plan.CheckpointPlan? && plan.b == b && Before(w0, w, b) && Rank(st) <= 2
    case DriveReadback(plan, st, e) => plan.CheckpointPlan? && plan.b == b && Before(w0, w, b) && Rank(st) <= 2
    case DriveVerify(plan, st, e) => plan.CheckpointPlan? && plan.b == b && Before(w0, w, b) && Rank(st) <= 2
    case DriveCommit(plan, st, e) => plan.CheckpointPlan? && plan.b == b && Before(w0, w, b) && Rank(st) <= 2
    case DriveLocal(_, st, r) => After(w0, w, cmd, b, r) && st == ReadbackVerified
    case DriveFinalize(_, st, r) => After(w0, w, cmd, b, r) && st == LocalCommitted
    case DriveFinish(_, r) => After(w0, w, cmd, b, r) && LeaseSettled(w, cmd.authority.leaseId)
    case _ => false
  }

  /** How far an undisturbed call from `w0` has come. */
  ghost predicate Story(w0: World, w: World, cmd: CheckpointCmd, b: Binding, pc: Pc) {
    match pc
    case Checkpoint(p) =>
      && w.t == w0.t && w.hazel == w0.hazel
      && !p.ReadReplaySaga? && !p.VerifyReplay? && (!p.ReadBinding? ==> p.b == b)
    case Drive(p) => DriveStory(w0, w, cmd, b, p)
    case Done(o) =>
      o.Returned? ==>
        && After(w0, w, cmd, b, o.binding) && LeaseSettled(w, cmd.authority.leaseId)
        && cmd.key in w.t.sagas && w.t.sagas[cmd.key].state == LeaseFinalized
    case _ => false
  }

  /** No journal row under the key yet, and no saga under it that claims one. */
  ghost predicate Unused(w: World, cmd: CheckpointCmd) {
    && InstanceTables.Lookup(w.t.journal, cmd.key).None?
    && (cmd.key in w.t.sagas ==> Rank(w.t.sagas[cmd.key].state) <= 2 || w.t.sagas[cmd.key].kind == ReplacementSaga)
    && (cmd.key in w.t.sagas && w.t.sagas[cmd.key].kind == ReplacementSaga ==> !w.t.sagas[cmd.key].fingerprint.CheckpointFingerprint?)
  }

  lemma CheckpointTells(w0: World, w: World, cmd: CheckpointCmd, b: Binding, pc: CheckpointPc)
    requires ExactCheckpoint(w, cmd, pc) && Story(w0, w, cmd, b, Checkpoint(pc)) && Unused(w0, cmd)
    requires cmd.binding in w0.t.bindings && w0.t.bindings[cmd.binding] == b
    ensures Story(w0, StepCheckpoint(w, pc).0, cmd, b, StepCheckpoint(w, pc).1)
  {
    hide Reserve, LeaseValid, SameCheckpoint;
  }

  lemma PersistTells(w0: World, w: World, cmd: CheckpointCmd, b: Binding, plan: Plan, st: SagaState, payload: Payload)
    requires ExactDrive(w, cmd, DrivePersist(plan, st, payload)) && DriveStory(w0, w, cmd, b, DrivePersist(plan, st, payload))
    ensures Story(w0, PersistStep(w, plan, st, payload).0, cmd, b, PersistStep(w, plan, st, payload).1)
  {
    hide Begun, CheckpointPlanOf;
  }

  lemma CommitTells(w0: World, w: World, cmd: CheckpointCmd, b: Binding, plan: Plan, st: SagaState, e: HazelEvent)
    requires ExactDrive(w, cmd, DriveCommit(plan, st, e)) && DriveStory(w0, w, cmd, b, DriveCommit(plan, st, e))
    requires plan.CheckpointPlan?
    ensures Story(w0, CheckpointCommitStep(w, plan, st, e).0, cmd, b, CheckpointCommitStep(w, plan, st, e).1)
  {
    hide Grew, PlatformTaken, Allowed;
    var a := CheckpointArgs(plan, e);
    if Transition(w.t, a).Ok? {
      var x := JournalEvent(a.binding, a.kind, Some(b.status), a.target, b.version + 1, a.key, TransitionBody(a.note, a.change));
      assert Transition(w.t, a).value.0.journal == w0.t.journal + [x] && IsCheckpointRow(x, cmd, b);
    }
  }

  lemma FinalizedIsSettled(ls: Leases, id: string)
    requires Finalize(ls, id).Ok?
    ensures id in Finalize(ls, id).value && Settled(Finalize(ls, id).value[id])
  {
  }

  lemma SagaTells(w0: World, w: World, cmd: CheckpointCmd, b: Binding, pc: DrivePc)
    requires pc.DriveEffect? || pc.DriveVerify? || pc.DriveLocal?
    requires ExactDrive(w, cmd, pc) && DriveStory(w0, w, cmd, b, pc)
    ensures Story(w0, StepDrive(w, pc).0, cmd, b, StepDrive(w, pc).1)
  {
    hide Fresh, Grew, Shows, Replayed, Persist, CheckpointCommitStep, PersistStep, CheckpointPlanOf, Finalize, Effected, Recovered,
         IsCheckpointRow, ReadbackStep, FinalizeStep, FinishStep;
  }

  lemma LeaseTells(w0: World, w: World, cmd: CheckpointCmd, b: Binding, pc: DrivePc)
    requires pc.DriveFinalize? || pc.DriveFinish?
    requires ExactDrive(w, cmd, pc) && DriveStory(w0, w, cmd, b, pc)
    ensures Story(w0, StepDrive(w, pc).0, cmd, b, StepDrive(w, pc).1)
  {
    hide Grew, Shows, Replayed, Settled, Persist, Finalize, Recovered, IsCheckpointRow, EffectStep, ReadbackStep, VerifyStep, LocalStep,
         CheckpointCommitStep, PersistStep;
    if pc.DriveFinalize? && Finalize(w.leases, cmd.authority.leaseId).Ok? {
      FinalizedIsSettled(w.leases, cmd.authority.leaseId);
    }
  }

  lemma ReadTells(w0: World, w: World, cmd: CheckpointCmd, b: Binding, pc: DrivePc)
    requires pc.DriveRecover? || pc.DriveReadback?
    requires ExactDrive(w, cmd, pc) && DriveStory(w0, w, cmd, b, pc)
    ensures Story(w0, StepDrive(w, pc).0, cmd, b, StepDrive(w, pc).1)
  {
    hide Fresh, Grew, Shows, Replayed, Persist, CheckpointCommitStep, PersistStep, CheckpointPlanOf, EffectStep, VerifyStep, LocalStep,
         FinalizeStep, FinishStep, Effected;
  }

  lemma DriveTells(w0: World, w: World, cmd: CheckpointCmd, b: Binding, pc: DrivePc)
    requires ExactDrive(w, cmd, pc) && DriveStory(w0, w, cmd, b, pc)
    ensures Story(w0, StepDrive(w, pc).0, cmd, b, StepDrive(w, pc).1)
  {
    hide Story, DriveStory, Effected, ReplayedAt, Begun, Finalize, Recovered, PersistStep, EffectStep, ReadbackStep, VerifyStep,
         CheckpointCommitStep, LocalStep, FinalizeStep, FinishStep;
    match pc
    case DrivePersist(plan, st, payload) => PersistTells(w0, w, cmd, b, plan, st, payload);
    case DriveCommit(plan, st, e) => CommitTells(w0, w, cmd, b, plan, st, e);
    case DriveEffect(_, _, _) => SagaTells(w0, w, cmd, b, pc);
    case DriveVerify(_, _, _) => SagaTells(w0, w, cmd, b, pc);
    case DriveLocal(_, _, _) => SagaTells(w0, w, cmd, b, pc);
    case DriveFinalize(_, _, _) => LeaseTells(w0, w, cmd, b, pc);
    case DriveFinish(_, _) => LeaseTells(w0, w, cmd, b, pc);
    case DriveRecover(_, _) => ReadTells(w0, w, cmd, b, pc);
    case DriveReadback(_, _, _) => ReadTells(w0, w, cmd, b, pc);
  }

  lemma {:induction false} Tells(w0: World, w: World, cmd: CheckpointCmd, b: Binding, pc: Pc)
    requires Exact(w, cmd, pc) && Story(w0, w, cmd, b, pc) && Unused(w0, cmd)
    requires cmd.binding in w0.t.bindings && w0.t.bindings[cmd.binding] == b
    ensures var r := Finish(w, pc); Story(w0, r.0, cmd, b, Done(r.1))
    decreases Remaining(pc)
  {
    hide Finish, ExactCheckpoint, ExactDrive, DriveStory, After, ReplayedAt, StepPrepare, StepBridge, StepReconcile, StepCheckpoint,
         StepReplace, StepRecover, StepDrive, Remaining;
    if pc.Done? {
      FinishDone(w, pc.outcome);
    } else {
      var r := Step(w, pc);
      FinishByStep(w, pc);
      StepDecreases(w, pc);
      StepStaysExact(w, cmd, pc);
      if pc.Checkpoint? {
        CheckpointTells(w0, w, cmd, b, pc.checkpoint);
      } else {
        DriveTells(w0, w, cmd, b, pc.drive);
      }
      if Exact(r.0, cmd, r.1) {
        Tells(w0, r.0, cmd, b, r.1);
      } else {
        FinishDone(r.0, r.1.outcome);
      }
    }
  }

  lemma UnusedKey(w: World, cmd: CheckpointCmd)
    requires Inv(w) && InstanceTables.Lookup(w.t.journal, cmd.key).None?
    ensures Unused(w, cmd)
  {
    hide Inv, SagaEffect, SagaRows, SagaLease;
    if cmd.key in w.t.sagas {
      SagaFact(w, cmd.key);
    }
  }

  lemma Untouched(w: World, cmd: CheckpointCmd)
    requires cmd.binding !in w.t.bindings
    ensures Finish(w, Entry(cmd)) == (w, Raised(BindingNotFound))
  {
    hide Finish;
    FinishCheckpoint(w, ReadBinding(cmd));
    FinishDone(w, Raised(BindingNotFound));
  }

  /** With the versions of the log in order, its length says how often Hazel has advanced. */
  lemma ShownLength(w0: World, h: Logs, cmd: CheckpointCmd, b: Binding, r: Binding)
    requires Inv(w0) && Grew(w0.hazel, h, b.lineage) && Shows(h, cmd, b, r)
    ensures |Run(h, b.lineage)| == b.checkpointVersion + 1
  {
    hide Inv, InLog;
    if h == w0.hazel {
      LastFact(w0, b.lineage);
    }
  }

  lemma AfterLength(w0: World, w: World, cmd: CheckpointCmd, b: Binding, r: Binding)
    requires Inv(w0) && After(w0, w, cmd, b, r)
    ensures |Run(w.hazel, b.lineage)| == b.checkpointVersion + 1
  {
    hide Inv, Grew, Shows, IsCheckpointRow;
    ShownLength(w0, w.hazel, cmd, b, r);
  }

  /**
   A checkpoint under a fresh key that returns, after any number of attempts cut
   anywhere: the row moves by one, Hazel stands exactly one past the old
   checkpoint, the journal has one row more, the saga is LEASE_FINALIZED.
   */
  lemma CheckpointDone(w: World, cmd: CheckpointCmd, cuts: seq<nat>)
    requires Inv(w) && InstanceTables.Lookup(w.t.journal, cmd.key).None?
    requires Finish(w, Entry(cmd)).1.Returned?
    ensures cmd.binding in w.t.bindings
    ensures var b := w.t.bindings[cmd.binding];
            var (w', o) := Finish(Attempts(w, cmd, cuts), Entry(cmd));
            && o.Returned? && After(w, w', cmd, b, o.binding)
            && |Run(w'.hazel, b.lineage)| == b.checkpointVersion + 1
            && cmd.key in w'.t.sagas && w'.t.sagas[cmd.key].state == LeaseFinalized
            && LeaseSettled(w', cmd.authority.leaseId)
  {
    hide Inv, Finish, After, LeaseSettled;
    if cmd.binding !in w.t.bindings {
      Untouched(w, cmd);
    } else {
      var b := w.t.bindings[cmd.binding];
      SeenRow(w, cmd.binding);
      UnusedKey(w, cmd);
      CheckpointConverges(w, cmd, cuts);
      Tells(w, w, cmd, b, Entry(cmd));
      AfterLength(w, Finish(w, Entry(cmd)).0, cmd, b, Finish(w, Entry(cmd)).1.binding);
    }
  }
}
