/**
 What a call in flight may rely on.  Its local variables are snapshots of rows
 that may have moved on since, and of Hazel events that are there to stay; every
 fact below survives whatever other calls do in the meantime.
 */
module InstanceCalls {
  import opened Prelude
  import opened InstanceContracts
  import opened InstanceTables
  import opened InstanceEffects
  import opened InstanceProtocol
  import opened InstanceChain
  import opened InstanceInvariant

  // ---------------------------------------------------------------- facts read off the invariant

  lemma RowFact(w: World, id: BindingId)
    requires Inv(w) && id in w.t.bindings
    ensures RowOk(id, w.t.bindings[id]) && LinkOk(w.t.bindings, w.t.bindings[id])
    ensures BackedOk(w.t.bindings[id], Run(w.hazel, w.t.bindings[id].lineage))
  {
    hide JournalOk, SagasOk, RecentOk, Driven, RowOk, LinkOk, BackedOk, Logged, Named, UniqueKeys, UniqueGenerations, Continued;
  }

  lemma LogFact(w: World, l: Lineage, i: nat)
    requires Inv(w) && i < |Run(w.hazel, l)|
    ensures var e := Run(w.hazel, l)[i];
            InLog(w.hazel, e) && e.run == l && e.version == i + 1 && NamesOk(w.t.bindings, l, i, e)
  {
    hide Chain, JournalOk, SagasOk, RecentOk, Driven, Backed, NamesOk;
  }

  lemma LastFact(w: World, l: Lineage)
    requires Inv(w) && Run(w.hazel, l) != []
    ensures var e := Last(Run(w.hazel, l));
            InLog(w.hazel, e) && e.run == l && e.version == |Run(w.hazel, l)|
  {
    hide Inv, NamesOk;
    LogFact(w, l, |Run(w.hazel, l)| - 1);
  }

  lemma EventFact(w: World, e: HazelEvent)
    requires Inv(w) && InLog(w.hazel, e)
    ensures NamesOk(w.t.bindings, e.run, e.version - 1, e)
  {
    hide Inv, NamesOk;
    LogFact(w, e.run, e.version - 1);
  }

  lemma SagaFact(w: World, key: Key)
    requires Inv(w) && key in w.t.sagas
    ensures SagaOk(w, key, w.t.sagas[key])
  {
    hide Chain, HazelOk, JournalOk, RecentOk, Driven, SagaOk;
  }

  lemma RecentFact(w: World, id: BindingId)
    requires Inv(w) && id in w.t.recent
    ensures w.t.recent[id] in w.t.sagas
    ensures w.t.sagas[w.t.recent[id]].kind == ReplacementSaga && w.t.sagas[w.t.recent[id]].binding == id
  {
    hide Chain, HazelOk, JournalOk, SagasOk, Driven;
  }

  lemma DrivenFact(w: World, key: Key)
    requires Inv(w) && InstanceTables.Lookup(w.t.journal, key).Some?
    ensures InstanceTables.Lookup(w.t.journal, key).value.key == key
    ensures DrivenBySaga(w.t.sagas, InstanceTables.Lookup(w.t.journal, key).value)
  {
    hide Chain, HazelOk, JournalOk, SagasOk, RecentOk, DrivenBySaga;
    LookupIn(w.t.journal, key);
  }

  // ---------------------------------------------------------------- snapshots

  /** A row as it was read at some moment. */
  predicate SnapshotOk(b: Binding) {
    && RowOk(b.id, b)
    && (b.status != Prepared ==>
          && b.checkpointVersion >= 1
          && b.eventHash.Some?
          && b.eventHash.value.event.run == b.lineage
          && b.eventHash.value.event.payload.binding == b.id)
  }

  ghost predicate Seen(w: World, b: Binding) {
    && SnapshotOk(b)
    && (b.status != Prepared ==> InLog(w.hazel, b.eventHash.value.event))
    && b.id in w.t.bindings
    && RowLater(b, w.t.bindings[b.id])
  }

  lemma SeenRow(w: World, id: BindingId)
    requires Inv(w) && id in w.t.bindings
    ensures Seen(w, w.t.bindings[id]) && w.t.bindings[id].id == id
  {
    hide Inv, LinkOk;
    RowFact(w, id);
    var b := w.t.bindings[id];
    if b.status != Prepared {
      LogFact(w, b.lineage, b.checkpointVersion - 1);
    }
  }

  lemma RowLaterTrans(a: Binding, b: Binding, c: Binding)
    requires RowLater(a, b) && RowLater(b, c)
    requires a.status != Prepared ==> b.status != Prepared
    ensures RowLater(a, c)
  {
  }

  lemma SeenLater(w: World, w': World, b: Binding)
    requires Seen(w, b) && Later(w, w')
    ensures Seen(w', b)
  {
    hide JournalLater, SagasLater, LeasesLater;
    assert RowLater(w.t.bindings[b.id], w'.t.bindings[b.id]);
    if b.status != Prepared {
      InLogLater(w.hazel, w'.hazel, b.eventHash.value.event);
    }
  }

  // ---------------------------------------------------------------- sagas and leases in sight

  ghost predicate SagaSeen(w: World, key: Key, kind: SagaKind, binding: BindingId, leaseId: string, st: SagaState) {
    && key in w.t.sagas
    && w.t.sagas[key].kind == kind
    && w.t.sagas[key].binding == binding
    && w.t.sagas[key].leaseId == leaseId
    && Rank(st) <= Rank(w.t.sagas[key].state)
  }

  /** A lease on which some use has been reserved. */
  predicate LeaseTaken(w: World, id: string) {
    id in w.leases && w.leases[id].state != LeaseActive
  }

  predicate LeaseSettled(w: World, id: string) {
    id in w.leases && Settled(w.leases[id])
  }

  lemma SagaSeenLater(w: World, w': World, key: Key, kind: SagaKind, binding: BindingId, leaseId: string, st: SagaState)
    requires SagaSeen(w, key, kind, binding, leaseId, st) && Later(w, w')
    ensures SagaSeen(w', key, kind, binding, leaseId, st)
  {
    hide JournalLater, RowsLater, LogsLater, LeasesLater;
    assert SagaLater(w.t.sagas[key], w'.t.sagas[key]);
  }

  lemma LeaseLaterFacts(w: World, w': World, id: string)
    requires Later(w, w')
    ensures LeaseTaken(w, id) ==> LeaseTaken(w', id)
    ensures LeaseSettled(w, id) ==> LeaseSettled(w', id)
  {
    hide JournalLater, RowsLater, LogsLater, SagasLater;
    if id in w.leases {
      assert LeaseLater(w.leases[id], w'.leases[id]);
    }
  }

  // ---------------------------------------------------------------- plans

  /** A predecessor and the successor that was created for it. */
  ghost predicate PairOk(w: World, p: Binding, s: Binding, leaseId: string) {
    && Seen(w, p) && p.status in {Checkpointed, Replaced}
    && Seen(w, s) && s.predecessor == Some(p.id) && s.lineage == p.lineage && s.leaseId == leaseId
  }

  ghost predicate PlanOk(w: World, plan: Plan) {
    match plan
    case CheckpointPlan(b, expected, key, payload, authority) =>
      && Seen(w, b) && b.status in {Active, Checkpointed} && expected <= b.version
      && payload.CheckpointPayload? && payload.binding == b.id
    case ReplacePlan(p, s, expected, key, payload, leaseId) =>
      && PairOk(w, p, s, leaseId)
      && IsReplacementPayload(payload, p, s)
    case RecoveryPlan(p, s, key, leaseId) =>
      PairOk(w, p, s, leaseId)
  }

  predicate IsReplacementPayload(payload: Payload, p: Binding, s: Binding) {
    payload.ReplacementPayload? && payload.binding == s.id && payload.recoveredFrom == p.id
  }

  function KindOf(plan: Plan): SagaKind {
    if plan.CheckpointPlan? then CheckpointSaga else ReplacementSaga
  }

  ghost predicate DriveOk(w: World, plan: Plan, st: SagaState) {
    && PlanOk(w, plan)
    && SagaSeen(w, plan.key, KindOf(plan), Base(plan).id, LeaseOf(plan), st)
    && (plan.CheckpointPlan? ==> w.t.sagas[plan.key].fingerprint == FingerprintOf(plan))
  }

  /** What a plan may write: its own payload, or for recovery some replacement of `p` by `s`. */
  predicate PayloadOk(plan: Plan, payload: Payload) {
    if plan.RecoveryPlan? then IsReplacementPayload(payload, plan.p, plan.s) else payload == plan.payload
  }

  /** The event found or written for the plan; recovery adopts one before it has looked at it. */
  ghost predicate Adopted(w: World, plan: Plan, e: HazelEvent) {
    && InLog(w.hazel, e)
    && e.run == Base(plan).lineage
    && e.version == NextVersion(plan)
    && (!plan.RecoveryPlan? ==> e.payload == plan.payload)
  }

  ghost predicate Verified(w: World, plan: Plan, e: HazelEvent) {
    Adopted(w, plan, e) && PayloadOk(plan, e.payload)
  }

  /** The registry holds the commit the plan is about. */
  ghost predicate Committed(w: World, plan: Plan) {
    if plan.CheckpointPlan? then CheckpointJournaled(w.t.journal, plan.key, plan.b.id)
    else plan.p.id in w.t.bindings && w.t.bindings[plan.p.id].status == Replaced
  }

  ghost predicate ExpectedOk(w: World, id: BindingId, expected: nat) {
    expected <= 1 || (id in w.t.bindings && expected <= w.t.bindings[id].version)
  }

  // ---------------------------------------------------------------- the invariant of a call

  /** A root binding as prepare builds it. */
  ghost predicate RootOk(w: World, b: Binding) {
    && RowOk(b.id, b) && b.status == Prepared && b.version == 1
    && b.predecessor.None? && b.checkpointVersion == 0
    && (b.generation == 1 || LineageKnown(w.t.bindings, b.lineage))
  }

  ghost predicate PreparedInLog(w: World, b: Binding, e: HazelEvent) {
    Seen(w, b) && InLog(w.hazel, e) && e.run == b.lineage && e.payload == PreparedState(b)
  }

  ghost predicate PrepareInv(w: World, pc: PreparePc) {
    match pc
    case Lookup(_, _) => true
    case Validate(_, _) => true
    case Generation(_, _) => true
    case ReserveNew(b) => RootOk(w, b)
    case CreateNew(b) => RootOk(w, b)
    case FinalizeNew(b) => Seen(w, b)
    case HazelCheck(b) => Seen(w, b)
    case HazelWrite(b) => Seen(w, b)
    case HazelReadback(b, e) => PreparedInLog(w, b, e)
    case HazelCommit(b, e) => PreparedInLog(w, b, e)
  }

  ghost predicate BridgeInv(w: World, pc: BridgePc) {
    match pc
    case AttachCommit(_) => true
    case AckRead(a) => ExpectedOk(w, a.binding, a.expected)
    case AckCommit(a, b) => Seen(w, b) && b.id == a.binding && b.status == Bound && a.expected <= b.version
  }

  ghost predicate ResumeOk(b: Binding, resume: Resume) {
    resume.ResumeReplace? ==> b.predecessor == Some(resume.cmd.binding)
  }

  ghost predicate ReconcileInv(w: World, pc: ReconcilePc) {
    Seen(w, pc.b) && ResumeOk(pc.b, pc.resume)
  }

  ghost predicate WorkerSeen(w: World, cmd: CheckpointCmd, b: Binding) {
    Seen(w, b) && b.id == cmd.binding && b.status in {Active, Checkpointed} && cmd.expected <= b.version
  }

  ghost predicate CheckpointInv(w: World, pc: CheckpointPc) {
    match pc
    case ReadBinding(cmd) => ExpectedOk(w, cmd.binding, cmd.expected)
    case ReadReplay(cmd, b) => WorkerSeen(w, cmd, b)
    case ReadReplaySaga(plan, b) => plan.CheckpointPlan? && PlanOk(w, plan) && Committed(w, plan) && Seen(w, b)
                                    && DriveOk(w, plan, LeaseReserved)
    case VerifyReplay(plan, st, b) => plan.CheckpointPlan? && DriveOk(w, plan, st) && Committed(w, plan) && Seen(w, b)
    case ReadSaga(cmd, b) => WorkerSeen(w, cmd, b)
    case ValidateLease(cmd, b) => WorkerSeen(w, cmd, b)
    case ReserveLease(cmd, b) => WorkerSeen(w, cmd, b)
    case Begin(cmd, b) => WorkerSeen(w, cmd, b) && LeaseTaken(w, cmd.authority.leaseId)
  }

  /** A predecessor that passed the guards of replace_instance. */
  ghost predicate PreviousSeen(w: World, cmd: ReplaceCmd, p: Binding) {
    && Seen(w, p) && p.id == cmd.binding && p.status == Checkpointed
    && cmd.request.lineage == p.lineage && cmd.request.causation == p.eventHash
  }

  ghost predicate ReplaceInv(w: World, pc: ReplacePc) {
    match pc
    case ReadPrevious(_) => true
    case ReadExisting(cmd, p) => Seen(w, p) && p.id == cmd.binding
    case ReadReplacementSaga(cmd, p) => PreviousSeen(w, cmd, p)
    case ValidateReplacement(cmd, p) => PreviousSeen(w, cmd, p)
    case ReadPrior(cmd, p, seen) =>
      && PreviousSeen(w, cmd, p)
      && (seen.Some? ==> SagaSeen(w, cmd.key, ReplacementSaga, p.id, cmd.request.leaseId, seen.value))
    case ReserveReplacement(cmd, p, _) => PreviousSeen(w, cmd, p)
    case BeginReplacement(cmd, p, _) => PreviousSeen(w, cmd, p) && LeaseTaken(w, cmd.request.leaseId)
    case CreateSuccessor(cmd, p, _, st) =>
      PreviousSeen(w, cmd, p) && SagaSeen(w, cmd.key, ReplacementSaga, p.id, cmd.request.leaseId, st)
    case ReadDoneSaga(cmd, s) => Seen(w, s) && s.predecessor == Some(cmd.binding) && LeaseSettled(w, s.leaseId)
    case FinishDoneSaga(cmd, s) => Seen(w, s) && s.predecessor == Some(cmd.binding) && LeaseSettled(w, s.leaseId)
  }

  ghost predicate RecoverInv(w: World, pc: RecoverPc) {
    match pc
    case ReadLatest(_) => true
    case CountActive(b) => Seen(w, b)
    case ReadStranded(b) => Seen(w, b)
    case ReadPredecessor(b) => Seen(w, b)
    case ReadRecentSaga(p, s) => PairOk(w, p, s, s.leaseId)
    case Fidelity(b) => Seen(w, b)
    case FidelityPredecessor(b, _) => Seen(w, b)
  }

  ghost predicate RowAgain(w: World, id: BindingId, b: Binding) {
    Seen(w, b) && b.id == id
  }

  ghost predicate RecoveryOk(w: World, plan: Plan) {
    plan.RecoveryPlan? && DriveOk(w, plan, LeaseReserved)
  }

  ghost predicate DriveInv(w: World, pc: DrivePc) {
    match pc
    case DriveRecover(plan, st) => DriveOk(w, plan, st)
    case DrivePersist(plan, st, payload) => DriveOk(w, plan, st) && PayloadOk(plan, payload)
    case DriveEffect(plan, st, e) => DriveOk(w, plan, st) && Adopted(w, plan, e)
    case DriveReadback(plan, st, e) => DriveOk(w, plan, st) && Adopted(w, plan, e)
    case DriveVerify(plan, st, e) => DriveOk(w, plan, st) && Verified(w, plan, e)
    case DriveCommit(plan, st, e) => DriveOk(w, plan, st) && Verified(w, plan, e)
    case Reload(plan, e) => RecoveryOk(w, plan) && Verified(w, plan, e)
    case ReloadSuccessor(plan, e, p) => RecoveryOk(w, plan) && Verified(w, plan, e) && RowAgain(w, plan.p.id, p)
    case RecoveryCommit(plan, e, p, s) =>
      RecoveryOk(w, plan) && Verified(w, plan, e) && RowAgain(w, plan.p.id, p) && RowAgain(w, plan.s.id, s)
    case Confirm(plan) => RecoveryOk(w, plan)
    case ConfirmSuccessor(plan, p) => RecoveryOk(w, plan) && RowAgain(w, plan.p.id, p)
    case Resaga(plan, s) => RecoveryOk(w, plan) && Committed(w, plan) && Seen(w, s)
    case DriveLocal(plan, st, r) => DriveOk(w, plan, st) && Committed(w, plan) && Seen(w, r)
    case DriveFinalize(plan, st, r) => DriveOk(w, plan, st) && Committed(w, plan) && Seen(w, r)
    case DriveFinish(plan, r) =>
      DriveOk(w, plan, LeaseReserved) && Committed(w, plan) && Seen(w, r) && LeaseSettled(w, LeaseOf(plan))
  }

  ghost predicate CallInv(w: World, pc: Pc) {
    match pc
    case Prepare(p) => PrepareInv(w, p)
    case Bridge(p) => BridgeInv(w, p)
    case Reconcile(p) => ReconcileInv(w, p)
    case Checkpoint(p) => CheckpointInv(w, p)
    case Replace(p) => ReplaceInv(w, p)
    case Recover(p) => RecoverInv(w, p)
    case Drive(p) => DriveInv(w, p)
    case Done(o) => o.Returned? ==> Seen(w, o.binding)
  }

  // ---------------------------------------------------------------- stability

  lemma PairLater(w: World, w': World, p: Binding, s: Binding, leaseId: string)
    requires PairOk(w, p, s, leaseId) && Later(w, w')
    ensures PairOk(w', p, s, leaseId)
  {
    hide Seen, Later;
    SeenLater(w, w', p);
    SeenLater(w, w', s);
  }

  lemma PlanLater(w: World, w': World, plan: Plan)
    requires PlanOk(w, plan) && Later(w, w')
    ensures PlanOk(w', plan)
  {
    hide Seen, Later, PairOk;
    match plan
    case CheckpointPlan(b, _, _, _, _) => SeenLater(w, w', b);
    case ReplacePlan(p, s, _, _, _, l) => PairLater(w, w', p, s, l);
    case RecoveryPlan(p, s, _, l) => PairLater(w, w', p, s, l);
  }

  lemma FingerprintLater(w: World, w': World, key: Key)
    requires Later(w, w') && key in w.t.sagas
    ensures key in w'.t.sagas && w'.t.sagas[key].fingerprint == w.t.sagas[key].fingerprint
  {
    hide JournalLater, RowsLater, LogsLater, LeasesLater;
    assert SagaLater(w.t.sagas[key], w'.t.sagas[key]);
  }

  lemma DriveOkLater(w: World, w': World, plan: Plan, st: SagaState)
    requires DriveOk(w, plan, st) && Later(w, w')
    ensures DriveOk(w', plan, st)
  {
    hide PlanOk, Later;
    PlanLater(w, w', plan);
    SagaSeenLater(w, w', plan.key, KindOf(plan), Base(plan).id, LeaseOf(plan), st);
    FingerprintLater(w, w', plan.key);
  }

  lemma AdoptedLater(w: World, w': World, plan: Plan, e: HazelEvent)
    requires Later(w, w')
    ensures Adopted(w, plan, e) ==> Adopted(w', plan, e)
    ensures Verified(w, plan, e) ==> Verified(w', plan, e)
  {
    hide InLog, JournalLater, RowsLater, LeasesLater, SagasLater, LogsLater, PayloadOk;
    if InLog(w.hazel, e) {
      InLogLater(w.hazel, w'.hazel, e);
    }
  }

  lemma CommittedLater(w: World, w': World, plan: Plan)
    requires Committed(w, plan) && Later(w, w') && Rows(w'.t.bindings)
    ensures Committed(w', plan)
  {
    hide LogsLater, LeasesLater, SagasLater;
    if !plan.CheckpointPlan? {
      assert RowLater(w.t.bindings[plan.p.id], w'.t.bindings[plan.p.id]);
      assert RowOk(plan.p.id, w'.t.bindings[plan.p.id]);
    }
  }

  lemma ExpectedLater(w: World, w': World, id: BindingId, expected: nat)
    requires ExpectedOk(w, id, expected) && Later(w, w')
    ensures ExpectedOk(w', id, expected)
  {
    hide JournalLater, LogsLater, LeasesLater, SagasLater;
    if id in w.t.bindings {
      assert RowLater(w.t.bindings[id], w'.t.bindings[id]);
    }
  }

  lemma RootLater(w: World, w': World, b: Binding)
    requires RootOk(w, b) && Later(w, w')
    ensures RootOk(w', b)
  {
    hide JournalLater, LogsLater, LeasesLater, SagasLater, RowOk;
    if LineageKnown(w.t.bindings, b.lineage) {
      var id :| id in w.t.bindings && w.t.bindings[id].lineage == b.lineage;
      assert RowLater(w.t.bindings[id], w'.t.bindings[id]);
    }
  }

  lemma PrepareInvLater(w: World, w': World, pc: PreparePc)
    requires PrepareInv(w, pc) && Later(w, w')
    ensures PrepareInv(w', pc)
  {
    hide Later, Seen, InLog;
    match pc
    case Lookup(_, _) | Validate(_, _) | Generation(_, _) =>
    case ReserveNew(b) => RootLater(w, w', b);
    case CreateNew(b) => RootLater(w, w', b);
    case FinalizeNew(b) => SeenLater(w, w', b);
    case HazelCheck(b) => SeenLater(w, w', b);
    case HazelWrite(b) => SeenLater(w, w', b);
    case HazelReadback(b, e) => PreparedInLogLater(w, w', b, e);
    case HazelCommit(b, e) => PreparedInLogLater(w, w', b, e);
  }

  lemma PreparedInLogLater(w: World, w': World, b: Binding, e: HazelEvent)
    requires PreparedInLog(w, b, e) && Later(w, w')
    ensures PreparedInLog(w', b, e)
  {
    hide Seen, InLog, JournalLater, RowsLater, LeasesLater, SagasLater, LogsLater;
    SeenLater(w, w', b);
    InLogLater(w.hazel, w'.hazel, e);
  }

  lemma BridgeInvLater(w: World, w': World, pc: BridgePc)
    requires BridgeInv(w, pc) && Later(w, w')
    ensures BridgeInv(w', pc)
  {
    hide Later, Seen, ExpectedOk;
    match pc
    case AttachCommit(_) =>
    case AckRead(a) => ExpectedLater(w, w', a.binding, a.expected);
    case AckCommit(_, b) => SeenLater(w, w', b);
  }

  lemma CheckpointInvLater(w: World, w': World, pc: CheckpointPc)
    requires CheckpointInv(w, pc) && Later(w, w') && Rows(w'.t.bindings)
    ensures CheckpointInv(w', pc)
  {
    hide Later, Seen, PlanOk, DriveOk, Committed, Rows, LeaseTaken, ExpectedOk;
    match pc
    case ReadBinding(cmd) => ExpectedLater(w, w', cmd.binding, cmd.expected);
    case ReadReplay(cmd, b) => SeenLater(w, w', b);
    case ReadReplaySaga(plan, b) =>
      PlanLater(w, w', plan); DriveOkLater(w, w', plan, LeaseReserved); CommittedLater(w, w', plan); SeenLater(w, w', b);
    case VerifyReplay(plan, st, b) => DriveOkLater(w, w', plan, st); CommittedLater(w, w', plan); SeenLater(w, w', b);
    case ReadSaga(cmd, b) => SeenLater(w, w', b);
    case ValidateLease(cmd, b) => SeenLater(w, w', b);
    case ReserveLease(cmd, b) => SeenLater(w, w', b);
    case Begin(cmd, b) => SeenLater(w, w', b); LeaseLaterFacts(w, w', cmd.authority.leaseId);
  }

  lemma ReplaceInvLater(w: World, w': World, pc: ReplacePc)
    requires ReplaceInv(w, pc) && Later(w, w')
    ensures ReplaceInv(w', pc)
  {
    hide Later, Seen, SagaSeen, LeaseTaken, LeaseSettled;
    match pc
    case ReadPrevious(_) =>
    case ReadExisting(_, p) => SeenLater(w, w', p);
    case ReadReplacementSaga(_, p) => SeenLater(w, w', p);
    case ValidateReplacement(_, p) => SeenLater(w, w', p);
    case ReadPrior(cmd, p, seen) =>
      SeenLater(w, w', p);
      if seen.Some? {
        SagaSeenLater(w, w', cmd.key, ReplacementSaga, p.id, cmd.request.leaseId, seen.value);
      }
    case ReserveReplacement(_, p, _) => SeenLater(w, w', p);
    case BeginReplacement(cmd, p, _) => SeenLater(w, w', p); LeaseLaterFacts(w, w', cmd.request.leaseId);
    case CreateSuccessor(cmd, p, _, st) =>
      SeenLater(w, w', p); SagaSeenLater(w, w', cmd.key, ReplacementSaga, p.id, cmd.request.leaseId, st);
    case ReadDoneSaga(cmd, s) => SeenLater(w, w', s); LeaseLaterFacts(w, w', s.leaseId);
    case FinishDoneSaga(cmd, s) => SeenLater(w, w', s); LeaseLaterFacts(w, w', s.leaseId);
  }

  lemma RecoverInvLater(w: World, w': World, pc: RecoverPc)
    requires RecoverInv(w, pc) && Later(w, w')
    ensures RecoverInv(w', pc)
  {
    hide Later, Seen, PairOk;
    match pc
    case ReadLatest(_) =>
    case CountActive(b) => SeenLater(w, w', b);
    case ReadStranded(b) => SeenLater(w, w', b);
    case ReadPredecessor(b) => SeenLater(w, w', b);
    case ReadRecentSaga(p, s) => PairLater(w, w', p, s, s.leaseId);
    case Fidelity(b) => SeenLater(w, w', b);
    case FidelityPredecessor(b, _) => SeenLater(w, w', b);
  }

  lemma DriveInvLater(w: World, w': World, pc: DrivePc)
    requires DriveInv(w, pc) && Later(w, w') && Rows(w'.t.bindings)
    ensures DriveInv(w', pc)
  {
    hide Later, Seen, DriveOk, PayloadOk, Adopted, Verified, Committed, LeaseSettled, Rows;
    match pc
    case DriveRecover(plan, st) => DriveOkLater(w, w', plan, st);
    case DrivePersist(plan, st, _) => DriveOkLater(w, w', plan, st);
    case DriveEffect(plan, st, e) => DriveOkLater(w, w', plan, st); AdoptedLater(w, w', plan, e);
    case DriveReadback(plan, st, e) => DriveOkLater(w, w', plan, st); AdoptedLater(w, w', plan, e);
    case DriveVerify(plan, st, e) => DriveOkLater(w, w', plan, st); AdoptedLater(w, w', plan, e);
    case DriveCommit(plan, st, e) => DriveOkLater(w, w', plan, st); AdoptedLater(w, w', plan, e);
    case Reload(plan, e) => DriveOkLater(w, w', plan, LeaseReserved); AdoptedLater(w, w', plan, e);
    case ReloadSuccessor(plan, e, p) =>
      DriveOkLater(w, w', plan, LeaseReserved); AdoptedLater(w, w', plan, e); SeenLater(w, w', p);
    case RecoveryCommit(plan, e, p, s) =>
      DriveOkLater(w, w', plan, LeaseReserved); AdoptedLater(w, w', plan, e); SeenLater(w, w', p); SeenLater(w, w', s);
    case Confirm(plan) => DriveOkLater(w, w', plan, LeaseReserved);
    case ConfirmSuccessor(plan, p) => DriveOkLater(w, w', plan, LeaseReserved); SeenLater(w, w', p);
    case Resaga(plan, s) => DriveOkLater(w, w', plan, LeaseReserved); CommittedLater(w, w', plan); SeenLater(w, w', s);
    case DriveLocal(plan, st, r) => DriveOkLater(w, w', plan, st); CommittedLater(w, w', plan); SeenLater(w, w', r);
    case DriveFinalize(plan, st, r) => DriveOkLater(w, w', plan, st); CommittedLater(w, w', plan); SeenLater(w, w', r);
    case DriveFinish(plan, r) =>
      DriveOkLater(w, w', plan, LeaseReserved); CommittedLater(w, w', plan); SeenLater(w, w', r);
      LeaseLaterFacts(w, w', LeaseOf(plan));
  }

  /** Whatever happens elsewhere, a call keeps what it relies on. */
  lemma CallInvLater(w: World, w': World, pc: Pc)
    requires CallInv(w, pc) && Later(w, w') && Rows(w'.t.bindings)
    ensures CallInv(w', pc)
  {
    hide Later, Seen, Rows, PrepareInv, BridgeInv, CheckpointInv, ReplaceInv, RecoverInv, DriveInv;
    match pc
    case Prepare(p) => PrepareInvLater(w, w', p);
    case Bridge(p) => BridgeInvLater(w, w', p);
    case Reconcile(p) => SeenLater(w, w', p.b);
    case Checkpoint(p) => CheckpointInvLater(w, w', p);
    case Replace(p) => ReplaceInvLater(w, w', p);
    case Recover(p) => RecoverInvLater(w, w', p);
    case Drive(p) => DriveInvLater(w, w', p);
    case Done(o) =>
      if o.Returned? {
        SeenLater(w, w', o.binding);
      }
  }
}
