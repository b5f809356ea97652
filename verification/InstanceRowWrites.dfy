/** What one step of one call does to the rows of the bindings table, read off its program counter. */
module InstanceRowWrites {
  import opened Prelude
  import opened InstanceContracts
  import opened InstanceTables
  import opened InstanceEffects
  import opened InstanceProtocol
  import opened InstanceInvariant

  datatype RowWrite =
    | NoRow
    | NewRow
    | Move(move: TransitionArgs)
    | Pair(pair: CommitArgs)

  function DriveRows(pc: DrivePc): RowWrite {
    match pc
    case DriveCommit(plan, _, e) =>
      if plan.CheckpointPlan? then Move(CheckpointArgs(plan, e)) else if plan.ReplacePlan? then Pair(ReplaceArgs(plan, e)) else NoRow
    case RecoveryCommit(plan, e, p, s) => Pair(RecoveryArgs(plan, e, p, s))
    case _ => NoRow
  }

  function RowsOf(pc: Pc): RowWrite {
    match pc
    case Prepare(CreateNew(_)) => NewRow
    case Prepare(HazelCommit(b, e)) => Move(PersistedArgs(b, e))
    case Bridge(AttachCommit(a)) => Move(AttachArgs(a))
    case Bridge(AckCommit(a, _)) => Move(AckArgs(a))
    case Replace(CreateSuccessor(_, _, _, _)) => NewRow
    case Drive(p) => DriveRows(p)
    case _ => NoRow
  }

  predicate MovedBy(t: Tables, a: TransitionArgs, id: BindingId, b': Binding)
    requires id in t.bindings
  {
    && a.binding == id && InstanceTables.Lookup(t.journal, a.key).None?
    && t.bindings[id].version == a.expected && a.target in Allowed(t.bindings[id].status)
    && b' == Updated(t.bindings[id], a.target, a.change)
  }

  predicate PairedBy(t: Tables, a: CommitArgs, id: BindingId, b': Binding)
    requires id in t.bindings
  {
    || (id == a.successor && t.bindings[id].status == Prepared && b' == CommittedSuccessor(t.bindings[id], a))
    || (id == a.predecessor && b' == CommittedPredecessor(t.bindings[id]))
  }

  /** What may have become of a row that was there before the write. */
  predicate RowAfter(t: Tables, write: RowWrite, id: BindingId, b': Binding)
    requires id in t.bindings
  {
    || b' == t.bindings[id]
    || (write.Move? && MovedBy(t, write.move, id, b'))
    || (write.Pair? && PairedBy(t, write.pair, id, b'))
  }

  /** Rows stay or are moved as announced; a row that was not there is PREPARED. */
  ghost predicate RowsWrittenTo(t: Tables, write: RowWrite, t': Tables) {
    && (forall id :: id in t.bindings ==> id in t'.bindings && RowAfter(t, write, id, t'.bindings[id]))
    && (forall id :: id in t'.bindings && id !in t.bindings ==> t'.bindings[id].status == Prepared)
  }

  lemma SameRows(t: Tables, write: RowWrite, t': Tables)
    requires t'.bindings == t.bindings
    ensures RowsWrittenTo(t, write, t')
  {
  }

  lemma MoveRows(t: Tables, a: TransitionArgs)
    requires Transition(t, a).Ok?
    ensures RowsWrittenTo(t, Move(a), Transition(t, a).value.0)
  {
    hide PlatformTaken, Allowed, SameTransition, Updated;
  }

  lemma PairRows(t: Tables, a: CommitArgs)
    requires CommitReplacement(t, a).Ok?
    ensures RowsWrittenTo(t, Pair(a), CommitReplacement(t, a).value.0)
  {
    hide SameLineage, SameCommit, CommittedPredecessor, CommittedSuccessor;
  }

  lemma CreateRows(t: Tables, b: Binding)
    requires Create(t, b).Ok?
    ensures RowsWrittenTo(t, NewRow, Create(t, b).value.0)
  {
    hide Create, HasKey, GenerationTaken, ActiveExists;
    CreateShape(t, b);
  }

  lemma MoveStep(w: World, a: TransitionArgs)
    ensures RowsWrittenTo(w.t, Move(a), TransitionStep(w, a).0.t)
  {
    hide Transition, RowsWrittenTo;
    SameRows(w.t, Move(a), w.t);
    if Transition(w.t, a).Ok? {
      MoveRows(w.t, a);
    }
  }

  lemma CheckpointRows(w: World, plan: Plan, st: SagaState, e: HazelEvent)
    requires plan.CheckpointPlan?
    ensures RowsWrittenTo(w.t, Move(CheckpointArgs(plan, e)), CheckpointCommitStep(w, plan, st, e).0.t)
  {
    hide Transition, CheckpointArgs, RowsWrittenTo;
    SameRows(w.t, Move(CheckpointArgs(plan, e)), w.t);
    if Transition(w.t, CheckpointArgs(plan, e)).Ok? {
      MoveRows(w.t, CheckpointArgs(plan, e));
    }
  }

  lemma ReplaceRows(w: World, plan: Plan, st: SagaState, e: HazelEvent)
    requires plan.ReplacePlan?
    ensures RowsWrittenTo(w.t, Pair(ReplaceArgs(plan, e)), ReplaceCommitStep(w, plan, st, e).0.t)
  {
    hide CommitReplacement, ReplaceArgs, RowsWrittenTo;
    SameRows(w.t, Pair(ReplaceArgs(plan, e)), w.t);
    if CommitReplacement(w.t, ReplaceArgs(plan, e)).Ok? {
      PairRows(w.t, ReplaceArgs(plan, e));
    }
  }

  lemma RecoveryRows(w: World, plan: Plan, e: HazelEvent, p: Binding, s: Binding)
    ensures RowsWrittenTo(w.t, Pair(RecoveryArgs(plan, e, p, s)), RecoveryCommitStep(w, plan, e, p, s).0.t)
  {
    hide CommitReplacement, RecoveryArgs, RowsWrittenTo;
    SameRows(w.t, Pair(RecoveryArgs(plan, e, p, s)), w.t);
    if CommitReplacement(w.t, RecoveryArgs(plan, e, p, s)).Ok? {
      PairRows(w.t, RecoveryArgs(plan, e, p, s));
    }
  }

  /** Steps of the driver that leave the rows alone. */
  lemma DriveLeavesRows(w: World, pc: DrivePc)
    requires !pc.DriveCommit? && !pc.RecoveryCommit?
    ensures StepDrive(w, pc).0.t.bindings == w.t.bindings
  {
    hide CommitReplacement, Transition, CommitStep, RecoveryCommitStep, Finalize, Accepts, IsReplacementOf;
  }

  lemma DriveRowWrites(w: World, pc: DrivePc)
    ensures RowsWrittenTo(w.t, DriveRows(pc), StepDrive(w, pc).0.t)
  {
    hide RowsWrittenTo, CheckpointCommitStep, ReplaceCommitStep, RecoveryCommitStep, CheckpointArgs, ReplaceArgs, RecoveryArgs;
    match pc
    case DriveCommit(plan, st, e) =>
      SameRows(w.t, NoRow, w.t);
      if plan.CheckpointPlan? { CheckpointRows(w, plan, st, e); }
      if plan.ReplacePlan? { ReplaceRows(w, plan, st, e); }
    case RecoveryCommit(plan, e, p, s) => RecoveryRows(w, plan, e, p, s);
    case _ =>
      DriveLeavesRows(w, pc);
      SameRows(w.t, NoRow, StepDrive(w, pc).0.t);
  }

  lemma PrepareRowWrites(w: World, pc: PreparePc)
    ensures RowsWrittenTo(w.t, RowsOf(Prepare(pc)), StepPrepare(w, pc).0.t)
  {
    hide Create, Reserve, Finalize, Accepts, LeaseValid, BootstrapOf, RootBinding, TransitionStep, PersistedArgs, RowsWrittenTo;
    SameRows(w.t, RowsOf(Prepare(pc)), w.t);
    match pc
    case CreateNew(b) => if Create(w.t, b).Ok? { CreateRows(w.t, b); }
    case HazelCommit(b, e) => MoveStep(w, PersistedArgs(b, e));
    case _ =>
  }

  lemma ReplaceRowWrites(w: World, pc: ReplacePc)
    ensures RowsWrittenTo(w.t, RowsOf(Replace(pc)), StepReplace(w, pc).0.t)
  {
    hide Reserve, LeaseValid, Create, BootstrapOf, SuccessorBinding, ReplacePlanOf, Complete, RowsWrittenTo, ReplacementRow;
    SameRows(w.t, RowsOf(Replace(pc)), w.t);
    match pc
    case CreateSuccessor(cmd, p, _, _) =>
      if cmd.request.leaseId in w.leases {
        var b := SuccessorBinding(p, cmd.request, w.leases[cmd.request.leaseId].authorityRef, cmd.now);
        if Create(w.t, b).Ok? {
          CreateRows(w.t, b);
        }
      }
    case _ => SameRows(w.t, RowsOf(Replace(pc)), StepReplace(w, pc).0.t);
  }

  lemma BridgeRowWrites(w: World, pc: BridgePc)
    ensures RowsWrittenTo(w.t, RowsOf(Bridge(pc)), StepBridge(w, pc).0.t)
  {
    hide TransitionStep, AckArgs, AttachArgs, RowsWrittenTo;
    SameRows(w.t, RowsOf(Bridge(pc)), w.t);
    match pc
    case AttachCommit(a) => MoveStep(w, AttachArgs(a));
    case AckCommit(a, _) => MoveStep(w, AckArgs(a));
    case AckRead(_) =>
  }

  lemma CheckpointLeavesRows(w: World, pc: CheckpointPc)
    ensures StepCheckpoint(w, pc).0.t.bindings == w.t.bindings
  {
    hide Reserve, LeaseValid, FingerprintOf;
  }

  /** The rows after a step are those before it with the write that the program counter announces. */
  lemma StepRows(w: World, pc: Pc)
    ensures RowsWrittenTo(w.t, RowsOf(pc), Step(w, pc).0.t)
  {
    hide StepDrive, StepPrepare, StepCheckpoint, StepReplace, StepBridge, Reserve, Finalize, LatestBinding, LocalIdentity, SingleActive,
         Faithful, IsReplacementOf, Resumed, RowsWrittenTo, DriveRows;
    SameRows(w.t, NoRow, w.t);
    match pc
    case Prepare(p) => PrepareRowWrites(w, p);
    case Bridge(p) => BridgeRowWrites(w, p);
    case Reconcile(p) =>
    case Checkpoint(p) =>
      CheckpointLeavesRows(w, p);
      SameRows(w.t, NoRow, StepCheckpoint(w, p).0.t);
    case Replace(p) => ReplaceRowWrites(w, p);
    case Recover(p) =>
    case Drive(p) => DriveRowWrites(w, p);
    case Done(_) =>
  }
}
