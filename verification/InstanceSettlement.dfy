/**
 When LEASE_FINALIZED means that the lease is settled.  The driver advances a
 saga to LEASE_FINALIZED only after it has finalized the lease; the replay
 branch of replace_instance advances whatever saga is stored under the key it
 was given (app/ocs_instances/service.py:461-473).
 */
module InstanceSettlement {
  import opened Prelude
  import opened InstanceContracts
  import opened InstanceTables
  import opened InstanceEffects
  import opened InstanceProtocol
  import opened InstanceChain
  import opened InstanceInvariant
  import opened InstanceCalls
  import opened InstanceDriveSteps
  import opened InstanceSteps
  import opened InstanceRuns
  import opened InstanceProperties

  ghost predicate SagasSettled(w: World) {
    forall k :: k in w.t.sagas && w.t.sagas[k].state == LeaseFinalized ==> LeaseSettled(w, w.t.sagas[k].leaseId)
  }

  /** No saga has become LEASE_FINALIZED. */
  ghost predicate NoneFinalized(t: Tables, t': Tables) {
    forall k :: k in t'.sagas && t'.sagas[k].state == LeaseFinalized ==>
      k in t.sagas && t.sagas[k].state == LeaseFinalized && t.sagas[k].leaseId == t'.sagas[k].leaseId
  }

  predicate Finishing(pc: Pc) {
    (pc.Drive? && pc.drive.DriveFinish?) || (pc.Replace? && pc.replace.FinishDoneSaga?)
  }

  lemma CommitSagas(t: Tables, a: CommitArgs)
    requires CommitReplacement(t, a).Ok?
    ensures CommitReplacement(t, a).value.0.sagas == t.sagas
  {
    hide SameLineage, SameCommit;
  }

  lemma AdvanceFinalizesNone(t: Tables, key: Key, from: SagaState, to: SagaState)
    requires AdvanceSaga(t, key, from, to).Ok? && to != LeaseFinalized
    ensures NoneFinalized(t, AdvanceSaga(t, key, from, to).value.0)
  {
  }

  lemma CommitFinalizesNone(t: Tables, a: CommitArgs)
    requires CommitReplacement(t, a).Ok?
    ensures NoneFinalized(t, CommitReplacement(t, a).value.0)
  {
    hide CommitReplacement;
    CommitSagas(t, a);
  }

  lemma DriveFinalizesNone(w: World, pc: DrivePc)
    requires !pc.DriveFinish?
    ensures NoneFinalized(w.t, StepDrive(w, pc).0.t)
  {
    hide Transition, CommitReplacement, Finalize, AdvanceSaga, Accepts, IsReplacementOf, NoneFinalized;
    NoneFinalizedRefl(w.t);
    match pc
    case DriveEffect(plan, _, _) =>
      if AdvanceSaga(w.t, plan.key, LeaseReserved, EffectApplied).Ok? {
        AdvanceFinalizesNone(w.t, plan.key, LeaseReserved, EffectApplied);
      }
    case DriveVerify(plan, _, _) =>
      if AdvanceSaga(w.t, plan.key, EffectApplied, ReadbackVerified).Ok? {
        AdvanceFinalizesNone(w.t, plan.key, EffectApplied, ReadbackVerified);
      }
    case DriveLocal(plan, _, _) =>
      if AdvanceSaga(w.t, plan.key, ReadbackVerified, LocalCommitted).Ok? {
        AdvanceFinalizesNone(w.t, plan.key, ReadbackVerified, LocalCommitted);
      }
    case DriveCommit(plan, st, e) => DriveCommitFinalizesNone(w, plan, st, e);
    case RecoveryCommit(plan, e, p, s) =>
      if CommitReplacement(w.t, RecoveryArgs(plan, e, p, s)).Ok? {
        CommitFinalizesNone(w.t, RecoveryArgs(plan, e, p, s));
      }
    case _ =>
  }

  lemma DriveCommitFinalizesNone(w: World, plan: Plan, st: SagaState, e: HazelEvent)
    ensures NoneFinalized(w.t, CommitStep(w, plan, st, e).0.t)
  {
    hide Transition, CommitReplacement, NoneFinalized;
    NoneFinalizedRefl(w.t);
    if plan.CheckpointPlan? && Transition(w.t, CheckpointArgs(plan, e)).Ok? {
      TransitionNone(w.t, CheckpointArgs(plan, e));
    } else if plan.ReplacePlan? && CommitReplacement(w.t, ReplaceArgs(plan, e)).Ok? {
      CommitFinalizesNone(w.t, ReplaceArgs(plan, e));
    }
  }

  lemma TransitionNone(t: Tables, a: TransitionArgs)
    requires Transition(t, a).Ok?
    ensures NoneFinalized(t, Transition(t, a).value.0)
  {
    hide Transition;
    TransitionShape(t, a);
  }

  lemma TransitionFinalizesNone(w: World, a: TransitionArgs)
    ensures NoneFinalized(w.t, TransitionStep(w, a).0.t)
  {
    hide Transition;
    if Transition(w.t, a).Ok? {
      TransitionShape(w.t, a);
    }
  }

  lemma CreateFinalizesNone(t: Tables, b: Binding)
    ensures Create(t, b).Ok? ==> NoneFinalized(t, Create(t, b).value.0)
  {
    hide Create, HasKey, ActiveExists, GenerationTaken;
    if Create(t, b).Ok? {
      CreateShape(t, b);
    }
  }

  lemma StepFinalizesNone(w: World, pc: Pc)
    requires !Finishing(pc)
    ensures NoneFinalized(w.t, Step(w, pc).0.t)
  {
    hide StepDrive, TransitionStep, Create, Reserve, Finalize, Accepts, LeaseValid, LatestBinding, BootstrapOf, Resumed,
         RootBinding, SuccessorBinding, ReplacePlanOf, CheckpointPlanOf, IsReplacementOf, NoneFinalized;
    NoneFinalizedRefl(w.t);
    match pc
    case Prepare(p) =>
      if p.CreateNew? { CreateFinalizesNone(w.t, p.b); }
      if p.HazelCommit? { TransitionFinalizesNone(w, PersistedArgs(p.b, p.e)); }
    case Bridge(p) =>
      if p.AttachCommit? { TransitionFinalizesNone(w, AttachArgs(p.attach)); }
      if p.AckCommit? { TransitionFinalizesNone(w, AckArgs(p.ack)); }
    case Reconcile(p) =>
    case Checkpoint(p) => CheckpointFinalizesNone(w, p);
    case Replace(p) => ReplaceFinalizesNone(w, p);
    case Recover(p) =>
    case Drive(p) => DriveFinalizesNone(w, p);
    case Done(_) =>
  }

  lemma NoneFinalizedRefl(t: Tables)
    ensures NoneFinalized(t, t)
  {
  }

  lemma CheckpointFinalizesNone(w: World, pc: CheckpointPc)
    ensures NoneFinalized(w.t, StepCheckpoint(w, pc).0.t)
  {
    hide Reserve, LeaseValid, FingerprintOf;
  }

  lemma ReplaceFinalizesNone(w: World, pc: ReplacePc)
    requires !pc.FinishDoneSaga?
    ensures NoneFinalized(w.t, StepReplace(w, pc).0.t)
  {
    hide Reserve, LeaseValid, Create, BootstrapOf, SuccessorBinding, ReplacePlanOf, Complete;
    if pc.CreateSuccessor? && pc.cmd.request.leaseId in w.leases {
      CreateFinalizesNone(w.t, SuccessorBinding(pc.p, pc.cmd.request, w.leases[pc.cmd.request.leaseId].authorityRef, pc.cmd.now));
    }
  }

  // ---------------------------------------------------------------- the two finishing steps

  lemma SettledLater(w: World, w': World)
    requires SagasSettled(w) && Later(w, w') && NoneFinalized(w.t, w'.t)
    ensures SagasSettled(w')
  {
    hide Later, LeaseSettled;
    forall k | k in w'.t.sagas && w'.t.sagas[k].state == LeaseFinalized ensures LeaseSettled(w', w'.t.sagas[k].leaseId) {
      LeaseLaterFacts(w, w', w'.t.sagas[k].leaseId);
    }
  }

  /** One saga has become LEASE_FINALIZED: all is well exactly when its lease is settled. */
  lemma SettledByAdvance(w: World, key: Key)
    requires SagasSettled(w) && AdvanceSaga(w.t, key, LocalCommitted, LeaseFinalized).Ok?
    ensures SagasSettled(w.(t := AdvanceSaga(w.t, key, LocalCommitted, LeaseFinalized).value.0))
            <==> (w.t.sagas[key].state == LocalCommitted ==> LeaseSettled(w, w.t.sagas[key].leaseId))
  {
    hide Settled;
    var w' := w.(t := AdvanceSaga(w.t, key, LocalCommitted, LeaseFinalized).value.0);
    assert w'.t.sagas[key].state == LeaseFinalized;
    assert forall k :: k in w'.t.sagas && k != key ==> k in w.t.sagas && w'.t.sagas[k] == w.t.sagas[k];
  }

  /** The replay branch is about to finalize a saga that is not this replacement's, before its lease is settled. */
  ghost predicate Foreign(w: World, pc: Pc) {
    && pc.Replace? && pc.replace.FinishDoneSaga?
    && pc.replace.cmd.key in w.t.sagas
    && var saga := w.t.sagas[pc.replace.cmd.key];
    && saga.state == LocalCommitted
    && !(saga.kind == ReplacementSaga && saga.binding == pc.replace.cmd.binding)
    && !LeaseSettled(w, saga.leaseId)
  }

  /** This replacement's own saga holds the lease of the successor that was just reconciled. */
  lemma OwnSagaSettled(w: World, cmd: ReplaceCmd, s: Binding)
    requires Inv(w) && ReplaceInv(w, FinishDoneSaga(cmd, s))
    requires cmd.key in w.t.sagas && w.t.sagas[cmd.key].state == LocalCommitted
    requires w.t.sagas[cmd.key].kind == ReplacementSaga && w.t.sagas[cmd.key].binding == cmd.binding
    ensures LeaseSettled(w, w.t.sagas[cmd.key].leaseId)
  {
    hide Inv, LeaseSettled, SagaEffect, SagaJournal, SagaLease, InLog, Linked, UniqueGenerations, LinkOk;
    SagaFact(w, cmd.key);
    var id :| id in w.t.bindings && w.t.bindings[id].predecessor == Some(cmd.binding)
              && w.t.bindings[id].leaseId == w.t.sagas[cmd.key].leaseId;
    SeenIdentity(w, s);
    ChainOf(w);
    OneSuccessor(w.t.bindings, cmd.binding, s.id, id);
  }

  lemma FinishDoneSettles(w: World, cmd: ReplaceCmd, s: Binding)
    requires Inv(w) && ReplaceInv(w, FinishDoneSaga(cmd, s)) && SagasSettled(w)
    ensures SagasSettled(Step(w, Replace(FinishDoneSaga(cmd, s))).0) <==> !Foreign(w, Replace(FinishDoneSaga(cmd, s)))
  {
    hide Inv, ReplaceInv, SagasSettled, LeaseSettled;
    if AdvanceSaga(w.t, cmd.key, LocalCommitted, LeaseFinalized).Ok? {
      SettledByAdvance(w, cmd.key);
      if w.t.sagas[cmd.key].state == LocalCommitted && w.t.sagas[cmd.key].kind == ReplacementSaga
         && w.t.sagas[cmd.key].binding == cmd.binding {
        OwnSagaSettled(w, cmd, s);
      }
    }
  }

  lemma DriveFinishSettles(w: World, plan: Plan, r: Binding)
    requires Inv(w) && DriveInv(w, DriveFinish(plan, r)) && SagasSettled(w)
    ensures SagasSettled(Step(w, Drive(DriveFinish(plan, r))).0)
  {
    hide Inv, SagasSettled, LeaseSettled, PlanOk, Seen, Committed, AfterSaga;
    if AdvanceSaga(w.t, plan.key, LocalCommitted, LeaseFinalized).Ok? {
      SettledByAdvance(w, plan.key);
    }
  }

  /** Every step keeps finalized sagas settled, except exactly the foreign one. */
  lemma SettledByStep(w: World, pc: Pc)
    requires Inv(w) && CallInv(w, pc) && SagasSettled(w)
    ensures SagasSettled(Step(w, pc).0) <==> !Foreign(w, pc)
  {
    hide Inv, SagasSettled, Step, LeaseSettled, ReplaceInv, DriveInv, PrepareInv, BridgeInv, ReconcileInv, CheckpointInv, RecoverInv, Later;
    if pc.Replace? && pc.replace.FinishDoneSaga? {
      FinishDoneSettles(w, pc.replace.cmd, pc.replace.s);
    } else if pc.Drive? && pc.drive.DriveFinish? {
      DriveFinishSettles(w, pc.drive.plan, pc.drive.r);
    } else {
      StepFinalizesNone(w, pc);
      StepLands(w, pc);
      SettledLater(w, Step(w, pc).0);
    }
  }

  /** The key names a saga that is not of this replacement. */
  predicate NamesAnother(t: Tables, cmd: ReplaceCmd) {
    cmd.key in t.sagas && !(t.sagas[cmd.key].kind == ReplacementSaga && t.sagas[cmd.key].binding == cmd.binding)
  }

  /** What a caller can see to: under a key of its own, or one that names no saga, nothing is ever left unsettled. */
  lemma OwnKeySettles(w: World, pc: Pc)
    requires Inv(w) && CallInv(w, pc) && SagasSettled(w)
    requires pc.Replace? && pc.replace.FinishDoneSaga? ==> !NamesAnother(w.t, pc.replace.cmd)
    ensures SagasSettled(Step(w, pc).0)
  {
    hide Inv, CallInv, SagasSettled, Step, LeaseSettled;
    SettledByStep(w, pc);
  }

  /** No call of the run finalizes a foreign saga. */
  ghost predicate Careful(s: System, hs: seq<Happening>) {
    hs != [] ==>
      && Careful(s, DropLast(hs))
      && var before := Exec(s, DropLast(hs));
      (Last(hs).Advance? && Last(hs).call < |before.calls| ==> !Foreign(before.w, before.calls[Last(hs).call]))
  }

  lemma SettledAfter(s: System, h: Happening)
    requires SystemInv(s) && SagasSettled(s.w)
    requires h.Advance? && h.call < |s.calls| ==> !Foreign(s.w, s.calls[h.call])
    ensures SagasSettled(After(s, h).w)
  {
    hide Inv, SagasSettled, Step, EntersWell, Issuable, CallInv, Foreign, Later;
    if h.Advance? && h.call < |s.calls| {
      SettledByStep(s.w, s.calls[h.call]);
    } else if h.Issue? || h.Revoke? || h.Release? {
      AfterOk(s, h);
      NoneFinalizedRefl(s.w.t);
      SettledLater(s.w, After(s, h).w);
    }
  }

  /** LEASE_FINALIZED means that the lease is settled, throughout every careful run. */
  lemma {:induction false} FinalizedMeansSettled(profiles: map<string, Profile>, hs: seq<Happening>)
    requires Careful(Initial(profiles), hs)
    ensures SagasSettled(Exec(Initial(profiles), hs).w)
  {
    hide SystemInv, After, Foreign;
    if hs != [] {
      FinalizedMeansSettled(profiles, DropLast(hs));
      InitialOk(profiles);
      ExecOk(Initial(profiles), DropLast(hs));
      SettledAfter(Exec(Initial(profiles), DropLast(hs)), Last(hs));
    }
  }
}
