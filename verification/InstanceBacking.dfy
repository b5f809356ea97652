/**
 When EFFECT_APPLIED of a replacement means that Hazel holds the replacement.
 Cold recovery marks the saga before it looks at the event it has adopted
 (app/ocs_instances/recovery.py:117-129); that mark is the only step of any call
 that can get ahead of Hazel, and here is exactly when it does.
 */
module InstanceBacking {
  import opened Prelude
  import opened InstanceContracts
  import opened InstanceTables
  import opened InstanceEffects
  import opened InstanceProtocol
  import opened InstanceChain
  import opened InstanceInvariant
  import opened InstanceCalls
  import opened InstanceDriveSteps
  import opened InstanceSteps
  import opened InstanceRuns
  import opened InstanceSagaWrites
  import opened InstanceRowWrites

  /** EFFECT_APPLIED or later implies the effect, for replacements. */
  ghost predicate EffectsBacked(w: World) {
    forall k :: k in w.t.sagas && w.t.sagas[k].kind == ReplacementSaga && Rank(w.t.sagas[k].state) >= 1 ==>
      ReplacementWritten(w.hazel, LineageOf(w.t.sagas[k].binding), w.t.sagas[k].binding)
  }

  /** Every REPLACED binding has its replacement in Hazel. */
  ghost predicate ReplacedBacked(w: World) {
    forall id :: id in w.t.bindings && w.t.bindings[id].status == Replaced ==> ReplacementWritten(w.hazel, LineageOf(id), id)
  }

  // ---------------------------------------------------------------- replaced bindings

  lemma WrittenLater(h: Logs, h': Logs, l: Lineage, p: BindingId)
    requires LogsLater(h, h') && ReplacementWritten(h, l, p)
    ensures ReplacementWritten(h', l, p)
  {
    hide InLog, LogsLater;
    var e :| InLog(h, e) && e.run == l && e.payload.ReplacementPayload? && e.payload.recoveredFrom == p;
    InLogLater(h, h', e);
  }

  lemma LogsOfLater(w: World, w': World)
    requires Later(w, w')
    ensures LogsLater(w.hazel, w'.hazel)
  {
    hide LogsLater, RowsLater, SagasLater, JournalLater, LeasesLater;
  }

  /** A verified event of a replacement is one of the binding it names. */
  lemma VerifiedIsWritten(w: World, plan: Plan, e: HazelEvent)
    requires PlanOk(w, plan) && !plan.CheckpointPlan? && Verified(w, plan, e)
    ensures ReplacementWritten(w.hazel, LineageOf(plan.p.id), plan.p.id)
  {
    hide InLog, RowLater;
    assert plan.p.lineage == LineageOf(plan.p.id);
  }

  /** A row only becomes REPLACED when Hazel holds its replacement. */
  lemma ReplacedByStep(w: World, pc: Pc, id: BindingId)
    requires CallInv(w, pc) && id in w.t.bindings && w.t.bindings[id].status != Replaced
    requires id in Step(w, pc).0.t.bindings && Step(w, pc).0.t.bindings[id].status == Replaced
    requires RowAfter(w.t, RowsOf(pc), id, Step(w, pc).0.t.bindings[id])
    ensures ReplacementWritten(w.hazel, LineageOf(id), id)
  {
    hide Step, PlanOk, SagaSeen, Verified, Seen, ReplacementWritten, NextVersion, FingerprintOf, PrepareInv, CheckpointInv, ReplaceInv,
         RecoverInv, ReconcileInv, Allowed;
    assert pc.Drive?;
    match pc.drive
    case DriveCommit(plan, _, e) => VerifiedIsWritten(w, plan, e);
    case RecoveryCommit(plan, e, p, s) => VerifiedIsWritten(w, plan, e);
  }

  lemma ReplacedBackedByStep(w: World, pc: Pc)
    requires Inv(w) && CallInv(w, pc) && ReplacedBacked(w)
    ensures ReplacedBacked(Step(w, pc).0)
  {
    hide Inv, CallInv, Step, RowAfter, Later, ReplacementWritten;
    StepRows(w, pc);
    StepLands(w, pc);
    var w' := Step(w, pc).0;
    LogsOfLater(w, w');
    forall id | id in w'.t.bindings && w'.t.bindings[id].status == Replaced ensures ReplacementWritten(w'.hazel, LineageOf(id), id) {
      if w.t.bindings[id].status != Replaced {
        ReplacedByStep(w, pc, id);
      }
      WrittenLater(w.hazel, w'.hazel, LineageOf(id), id);
    }
  }

  // ---------------------------------------------------------------- the premature mark

  /** The latest event of the run replaces `p`: what reading Hazel would show. */
  predicate LastReplaces(h: Logs, l: Lineage, p: BindingId) {
    && Run(h, l) != []
    && Last(Run(h, l)).payload.ReplacementPayload? && Last(Run(h, l)).payload.recoveredFrom == p
  }

  /** Recovery is about to mark a saga whose predecessor is not replaced, with something else last in Hazel. */
  ghost predicate Premature(w: World, pc: Pc) {
    && pc.Drive? && pc.drive.DriveEffect? && pc.drive.st == LeaseReserved && pc.drive.plan.RecoveryPlan?
    && var plan := pc.drive.plan;
    && plan.key in w.t.sagas && w.t.sagas[plan.key].state == LeaseReserved
    && plan.p.id in w.t.bindings && w.t.bindings[plan.p.id].status != Replaced
    && !LastReplaces(w.hazel, plan.p.lineage, plan.p.id)
  }

  /** A checkpointed binding's replacement, once in Hazel, is the last event of the run. */
  lemma WrittenIsLast(w: World, id: BindingId)
    requires Inv(w) && id in w.t.bindings && w.t.bindings[id].status == Checkpointed
    ensures ReplacementWritten(w.hazel, LineageOf(id), id) <==> LastReplaces(w.hazel, LineageOf(id), id)
  {
    hide Inv, LinkOk;
    RowFact(w, id);
    if ReplacementWritten(w.hazel, LineageOf(id), id) {
      var e :| InLog(w.hazel, e) && e.run == LineageOf(id) && e.payload.ReplacementPayload? && e.payload.recoveredFrom == id;
      EventFact(w, e);
    }
    if LastReplaces(w.hazel, LineageOf(id), id) {
      LastFact(w, LineageOf(id));
    }
  }

  /** The predecessor of a recovery is CHECKPOINTED or REPLACED. */
  lemma PredecessorNow(w: World, plan: Plan)
    requires Inv(w) && PlanOk(w, plan) && !plan.CheckpointPlan?
    ensures plan.p.id in w.t.bindings && w.t.bindings[plan.p.id].status in {Checkpointed, Replaced}
    ensures plan.p.lineage == LineageOf(plan.p.id)
  {
    hide Inv, LinkOk, BackedOk, InLog;
    RowFact(w, plan.p.id);
  }

  /** What recovery has adopted when it is premature is no replacement: the check it makes afterwards would have refused it. */
  lemma PrematureAdoptsSomethingElse(w: World, pc: Pc)
    requires Inv(w) && CallInv(w, pc) && Premature(w, pc)
    ensures !IsReplacementOf(pc.drive.e, pc.drive.plan.p, pc.drive.plan.s, NextVersion(pc.drive.plan))
  {
    hide Inv, InLog, PairOk, RowLater;
    var plan, e := pc.drive.plan, pc.drive.e;
    PredecessorNow(w, plan);
    if IsReplacementOf(e, plan.p, plan.s, NextVersion(plan)) {
      assert ReplacementWritten(w.hazel, LineageOf(plan.p.id), plan.p.id);
      WrittenIsLast(w, plan.p.id);
    }
  }

  // ---------------------------------------------------------------- the step theorem

  /** The saga that a write first marks EFFECT_APPLIED. */
  predicate Marks(t: Tables, write: SagaWrite) {
    && write.Climb? && write.from == LeaseReserved
    && write.key in t.sagas && t.sagas[write.key].kind == ReplacementSaga && t.sagas[write.key].state == LeaseReserved
  }

  /** A write keeps the sagas backed unless it marks one whose effect is missing. */
  lemma BackedByWrite(w: World, write: SagaWrite, w': World)
    requires EffectsBacked(w) && WrittenTo(w.t, write, w'.t) && LogsLater(w.hazel, w'.hazel)
    ensures Marks(w.t, write) && write.to != LeaseReserved ==>
              (var p := w.t.sagas[write.key].binding; EffectsBacked(w') <==> ReplacementWritten(w'.hazel, LineageOf(p), p))
    ensures !Marks(w.t, write) ==> EffectsBacked(w')
  {
    hide LogsLater, ReplacementWritten;
    forall k | k in w.t.sagas && w.t.sagas[k].kind == ReplacementSaga && Rank(w.t.sagas[k].state) >= 1
      ensures ReplacementWritten(w'.hazel, LineageOf(w.t.sagas[k].binding), w.t.sagas[k].binding)
    {
      WrittenLater(w.hazel, w'.hazel, LineageOf(w.t.sagas[k].binding), w.t.sagas[k].binding);
    }
    if Marks(w.t, write) && write.to != LeaseReserved {
      assert w'.t.sagas[write.key].binding == w.t.sagas[write.key].binding && Rank(w'.t.sagas[write.key].state) >= 1;
    }
  }

  /** Only the driver's effect step marks a saga. */
  lemma MarkedByEffect(pc: Pc)
    requires WriteOf(pc).Climb? && WriteOf(pc).from == LeaseReserved
    ensures pc.Drive? && pc.drive.DriveEffect? && pc.drive.st == LeaseReserved
    ensures WriteOf(pc) == Climb(pc.drive.plan.key, LeaseReserved, EffectApplied)
  {
  }

  /** When the driver marks a replacement saga, the effect is missing exactly when it is premature. */
  lemma MarkIsBacked(w: World, plan: Plan, e: HazelEvent)
    requires Inv(w) && DriveInv(w, DriveEffect(plan, LeaseReserved, e)) && ReplacedBacked(w)
    requires plan.key in w.t.sagas && w.t.sagas[plan.key].kind == ReplacementSaga && w.t.sagas[plan.key].state == LeaseReserved
    ensures !plan.CheckpointPlan? && w.t.sagas[plan.key].binding == plan.p.id
    ensures ReplacementWritten(w.hazel, LineageOf(plan.p.id), plan.p.id) <==> !Premature(w, Drive(DriveEffect(plan, LeaseReserved, e)))
  {
    hide Inv, PlanOk, ReplacementWritten, InLog, FingerprintOf;
    PredecessorNow(w, plan);
    if plan.RecoveryPlan? {
      if w.t.bindings[plan.p.id].status == Checkpointed {
        WrittenIsLast(w, plan.p.id);
      }
    } else {
      OwnPayload(w, plan, e);
      VerifiedIsWritten(w, plan, e);
    }
  }

  /** The service only takes up its own payload. */
  lemma OwnPayload(w: World, plan: Plan, e: HazelEvent)
    requires plan.ReplacePlan? && PlanOk(w, plan) && Adopted(w, plan, e)
    ensures Verified(w, plan, e)
  {
    hide InLog, PairOk;
  }

  /** The effect step leaves Hazel alone. */
  lemma EffectKeepsHazel(w: World, pc: DrivePc)
    requires pc.DriveEffect?
    ensures StepDrive(w, pc).0.hazel == w.hazel
  {
    hide AdvanceSaga;
  }

  /** Every step of every call keeps EFFECT_APPLIED backed, except exactly the premature mark. */
  lemma BackedByStep(w: World, pc: Pc)
    requires Inv(w) && CallInv(w, pc) && ReplacedBacked(w) && EffectsBacked(w)
    ensures EffectsBacked(Step(w, pc).0) <==> !Premature(w, pc)
  {
    hide Inv, CallInv, ReplacedBacked, EffectsBacked, Step, WrittenTo, ReplacementWritten, LogsLater, Later;
    StepWrites(w, pc);
    StepLands(w, pc);
    LogsOfLater(w, Step(w, pc).0);
    BackedByWrite(w, WriteOf(pc), Step(w, pc).0);
    if Marks(w.t, WriteOf(pc)) {
      MarkedByEffect(pc);
      DriveInvOf(w, pc);
      MarkIsBacked(w, pc.drive.plan, pc.drive.e);
      StepIsDrive(w, pc);
      EffectKeepsHazel(w, pc.drive);
    } else if Premature(w, pc) {
      PrematureMarks(w, pc);
    }
  }

  lemma DriveInvOf(w: World, pc: Pc)
    requires CallInv(w, pc) && pc.Drive?
    ensures DriveInv(w, pc.drive)
  {
    hide DriveInv;
  }

  lemma StepIsDrive(w: World, pc: Pc)
    requires pc.Drive?
    ensures Step(w, pc) == StepDrive(w, pc.drive)
  {
    hide StepDrive;
  }

  lemma PrematureMarks(w: World, pc: Pc)
    requires CallInv(w, pc) && Premature(w, pc)
    ensures Marks(w.t, WriteOf(pc))
  {
    hide PlanOk, Adopted, LastReplaces;
  }

  // ---------------------------------------------------------------- runs

  /** No recovery of the run marks a saga prematurely. */
  ghost predicate Timely(s: System, hs: seq<Happening>) {
    hs != [] ==>
      && Timely(s, DropLast(hs))
      && var before := Exec(s, DropLast(hs));
      (Last(hs).Advance? && Last(hs).call < |before.calls| ==> !Premature(before.w, before.calls[Last(hs).call]))
  }

  lemma ReplacedBackedAfter(s: System, h: Happening)
    requires SystemInv(s) && ReplacedBacked(s.w)
    ensures ReplacedBacked(After(s, h).w)
  {
    hide Inv, Step, EntersWell, LeasesAfter, CallInv;
    if h.Advance? && h.call < |s.calls| {
      ReplacedBackedByStep(s.w, s.calls[h.call]);
    }
  }

  lemma BackedAfter(s: System, h: Happening)
    requires SystemInv(s) && ReplacedBacked(s.w) && EffectsBacked(s.w)
    requires h.Advance? && h.call < |s.calls| ==> !Premature(s.w, s.calls[h.call])
    ensures EffectsBacked(After(s, h).w)
  {
    hide Inv, Step, EntersWell, LeasesAfter, CallInv, Premature, ReplacedBacked;
    if h.Advance? && h.call < |s.calls| {
      BackedByStep(s.w, s.calls[h.call]);
    }
  }

  /** Whatever happens, every REPLACED binding has its replacement in Hazel. */
  lemma {:induction false} ReplacedMeansWritten(profiles: map<string, Profile>, hs: seq<Happening>)
    ensures ReplacedBacked(Exec(Initial(profiles), hs).w)
  {
    hide SystemInv, After;
    if hs != [] {
      ReplacedMeansWritten(profiles, DropLast(hs));
      InitialOk(profiles);
      ExecOk(Initial(profiles), DropLast(hs));
      ReplacedBackedAfter(Exec(Initial(profiles), DropLast(hs)), Last(hs));
    }
  }

  /** EFFECT_APPLIED means that Hazel has the effect, throughout every timely run. */
  lemma {:induction false} AppliedMeansWritten(profiles: map<string, Profile>, hs: seq<Happening>)
    requires Timely(Initial(profiles), hs)
    ensures EffectsBacked(Exec(Initial(profiles), hs).w)
  {
    hide SystemInv, After, Premature, ReplacedBacked;
    if hs != [] {
      AppliedMeansWritten(profiles, DropLast(hs));
      ReplacedMeansWritten(profiles, DropLast(hs));
      InitialOk(profiles);
      ExecOk(Initial(profiles), DropLast(hs));
      BackedAfter(Exec(Initial(profiles), DropLast(hs)), Last(hs));
    }
  }
}
