/** The convergence of replacement, and what its end looks like. */
module InstanceConvergence {
  import opened Prelude
  import opened InstanceContracts
  import opened InstanceTables
  import opened InstanceEffects
  import opened InstanceProtocol
  import opened InstanceChain
  import opened InstanceInvariant
  import opened InstanceCalls
  import opened InstanceDriveSteps
  import opened InstanceSteps
  import opened InstanceProperties
  import opened InstanceFinish
  import opened InstanceReplacing
  import opened InstanceReplacingSteps

  /** A call made while the replacement is under way, cut after some number of steps. */
  datatype Attempt =
    | Again(cmd: ReplaceCmd, steps: nat)
    | ColdStart(steps: nat)

  /** Where the call that created the successor carries on. */
  function AfterCreate(job: Job, expected: nat): Pc {
    Drive(DriveRecover(ReplacePlan(job.p, job.s, expected, job.key, JobPayload(job), job.s.leaseId), LeaseReserved))
  }

  /** Retries quote the same request under the same keys; clock, platform and expected version may differ. */
  predicate Fits(job: Job, a: Attempt) {
    a.Again? ==> Mine(job, a.cmd)
  }

  function RecoverEntry(job: Job): Pc {
    Recover(ReadLatest(job.p.lineage))
  }

  ghost function Tried(w: World, job: Job, a: Attempt): World {
    match a
    case Again(cmd, k) => Cut(w, Replace(ReadPrevious(cmd)), k).0
    case ColdStart(k) => Cut(w, RecoverEntry(job), k).0
  }

  /** The call that created the successor is cut first; then come the attempts. */
  ghost function AfterAttempts(w: World, job: Job, expected: nat, first: nat, attempts: seq<Attempt>): World {
    if attempts == [] then Cut(w, AfterCreate(job, expected), first).0
    else Tried(AfterAttempts(w, job, expected, first, DropLast(attempts)), job, Last(attempts))
  }

  lemma Begins(w: World, job: Job)
    requires JobReady(w, job)
    ensures Fine(START) && WorldAt(w, job, START) == w
  {
    assert w.t.sagas[job.key := w.t.sagas[job.key].(state := LeaseReserved)] == w.t.sagas;
  }

  /** A call cut anywhere leaves the world at some stage. */
  lemma {:induction false} CutStops(w: World, job: Job, pr: Progress, pc: Pc, k: nat) returns (pr': Progress)
    requires JobOk(w, job) && JobReady(w, job) && Fine(pr) && Knows(w, job, pr, pc)
    ensures Fine(pr') && Onward(pr, pr') && Cut(WorldAt(w, job, pr), pc, k).0 == WorldAt(w, job, pr')
    decreases k
  {
    hide JobOk, JobReady, WorldAt, Knows, Step, Recovering;
    pr' := pr;
    IdsAt(w, job);
    if k != 0 && !pc.Done? {
      var next := StepReaches(w, job, pr, pc);
      pr' := CutStops(w, job, next, Step(WorldAt(w, job, pr), pc).1, k - 1);
    }
  }

  lemma Entries(w: World, job: Job, pr: Progress, cmd: ReplaceCmd, expected: nat)
    requires JobReady(w, job) && Fine(pr)
    ensures Knows(w, job, pr, RecoverEntry(job))
    ensures Mine(job, cmd) ==> Knows(w, job, pr, Replace(ReadPrevious(cmd)))
    ensures pr == START ==> Knows(w, job, pr, AfterCreate(job, expected))
  {
    hide JobReady;
  }

  /** Whatever was attempted, the world is at some stage of this replacement. */
  lemma {:induction false} AttemptsStop(w: World, job: Job, expected: nat, first: nat, attempts: seq<Attempt>) returns (pr: Progress)
    requires JobOk(w, job) && JobReady(w, job)
    requires forall i :: 0 <= i < |attempts| ==> Fits(job, attempts[i])
    ensures Fine(pr) && AfterAttempts(w, job, expected, first, attempts) == WorldAt(w, job, pr)
    decreases |attempts|
  {
    hide JobOk, JobReady, WorldAt, Knows, Cut, Mine;
    if attempts == [] {
      Begins(w, job);
      Entries(w, job, START, ReplaceCmd(job.p.id, job.s.request, "", 0, 0, job.key, 0), expected);
      pr := CutStops(w, job, START, AfterCreate(job, expected), first);
    } else {
      var before := AttemptsStop(w, job, expected, first, DropLast(attempts));
      assert Fits(job, Last(attempts));
      pr := before;
      match Last(attempts)
      case Again(cmd, k) =>
        Entries(w, job, before, cmd, expected);
        pr := CutStops(w, job, before, Replace(ReadPrevious(cmd)), k);
      case ColdStart(k) =>
        Entries(w, job, before, ReplaceCmd(job.p.id, job.s.request, "", 0, 0, job.key, 0), expected);
        pr := CutStops(w, job, before, RecoverEntry(job), k);
    }
  }

  /** Recovery started at any stage runs to the end. */
  lemma {:induction false} RecoveryEnds(w: World, job: Job, pr: Progress, pc: Pc) returns (pr': Progress)
    requires JobOk(w, job) && JobReady(w, job) && Fine(pr) && Knows(w, job, pr, pc) && Recovering(pc)
    ensures Ended(pr') && Onward(pr, pr')
    ensures Finish(WorldAt(w, job, pr), pc) == (WorldAt(w, job, pr'), Returned(SuccessorAt(job, pr')))
    decreases Remaining(pc)
  {
    hide JobOk, JobReady, WorldAt, Knows, Step, Recovering, Finish, Remaining;
    NotDone(pc);
    IdsAt(w, job);
    var now := WorldAt(w, job, pr);
    pr' := StepReaches(w, job, pr, pc);
    FinishByStep(now, pc);
    StepDecreases(now, pc);
    var r := Step(now, pc);
    if r.1.Done? {
      FinishDone(r.0, r.1.outcome);
    } else {
      pr' := RecoveryEnds(w, job, pr', r.1);
    }
  }

  lemma NotDone(pc: Pc)
    requires Recovering(pc)
    ensures !pc.Done?
  {
  }

  predicate IsReplacedRow(x: JournalEvent, job: Job) {
    && x.binding == job.p.id && x.kind == InstanceReplaced && x.key == job.key
    && x.from == Some(Checkpointed) && x.to == Replaced && x.version == job.p.version + 1
  }

  predicate IsPersistedRow(y: JournalEvent, job: Job) {
    && y.binding == job.s.id && y.kind == ReplacementPersisted && y.key == job.key + ":successor"
    && y.from == Some(Prepared) && y.to == Persisted && y.version == 2
  }

  /** The end of a replacement: everything done once. */
  ghost predicate ReplacedOnce(w: World, w': World, job: Job, trace: Trace) {
    && w'.t.bindings == w.t.bindings[job.p.id := job.p.(status := Replaced, version := job.p.version + 1)]
                                    [job.s.id := job.s.(status := Persisted, version := 2,
                                                        checkpointVersion := job.p.checkpointVersion + 1,
                                                        checkpoint := Some(JobPayload(job)),
                                                        eventHash := Some(Sha(JobEvent(job, trace))))]
    && w'.hazel == w.hazel[job.p.lineage := Run(w.hazel, job.p.lineage) + [JobEvent(job, trace)]]
    && (exists x, y :: w'.t.journal == w.t.journal + [x] + [y] && IsReplacedRow(x, job) && IsPersistedRow(y, job))
    && w'.t.recent == w.t.recent
    && job.key in w.t.sagas && w'.t.sagas == w.t.sagas[job.key := w.t.sagas[job.key].(state := LeaseFinalized)]
    && job.s.leaseId in w'.leases && Settled(w'.leases[job.s.leaseId])
  }

  lemma EndIs(w: World, job: Job, pr: Progress)
    requires JobReady(w, job) && Ended(pr)
    ensures ReplacedOnce(w, WorldAt(w, job, pr), job, pr.trace.value)
    ensures SuccessorAt(job, pr).id == job.s.id
    ensures job.s.id in WorldAt(w, job, pr).t.bindings && WorldAt(w, job, pr).t.bindings[job.s.id] == SuccessorAt(job, pr)
  {
    FinalizeAt(w, job, pr);
    var es := CommitEvents(job.p, job.s, JobArgs(job, pr.trace.value));
    assert IsReplacedRow(es.0, job) && IsPersistedRow(es.1, job);
  }

  /** Two ends reached with the same Hazel event are the same world. */
  lemma SameEnd(w: World, job: Job, a: Progress, b: Progress)
    requires JobReady(w, job) && Ended(a) && Ended(b) && a.trace == b.trace
    ensures WorldAt(w, job, a) == WorldAt(w, job, b) && SuccessorAt(job, a) == SuccessorAt(job, b)
  {
    assert a == b;
  }

  // ---------------------------------------------------------------- the uninterrupted call

  function AtOnce(state: SagaState, committed: bool, settled: bool): Progress {
    Progress(Some(ReplacementTrace), state, committed, settled)
  }

  function OwnPlan(job: Job): Plan {
    ReplacePlan(job.p, job.s, job.p.version, job.key, JobPayload(job), job.s.leaseId)
  }

  lemma WritesEvent(w: World, job: Job)
    requires JobReady(w, job)
    ensures Finish(WorldAt(w, job, START), Drive(DriveRecover(OwnPlan(job), LeaseReserved)))
            == Finish(WorldAt(w, job, AtOnce(LeaseReserved, false, false)),
                      Drive(DriveEffect(OwnPlan(job), LeaseReserved, JobEvent(job, ReplacementTrace))))
  {
    hide Finish, RowsReady, SagaReady, LeaseReady, BindingsAt, JournalAt, LeasesAt, LogAt, Persist;
    IdsAt(w, job);
    var plan, now := OwnPlan(job), WorldAt(w, job, START);
    LogIs(w, job, START);
    FinishDrive(now, DriveRecover(plan, LeaseReserved));
    FinishDrive(now, DrivePersist(plan, LeaseReserved, plan.payload));
    PersistAt(w, job, START, ReplacementTrace);
  }

  lemma ReadsBack(w: World, job: Job)
    requires JobReady(w, job)
    ensures var (plan, e) := (OwnPlan(job), JobEvent(job, ReplacementTrace));
            Finish(WorldAt(w, job, AtOnce(LeaseReserved, false, false)), Drive(DriveEffect(plan, LeaseReserved, e)))
            == Finish(WorldAt(w, job, AtOnce(EffectApplied, false, false)), Drive(DriveVerify(plan, EffectApplied, e)))
  {
    hide Finish, RowsReady, SagaReady, LeaseReady, BindingsAt, JournalAt, LeasesAt, LogAt, AdvanceSaga;
    IdsAt(w, job);
    var (plan, e) := (OwnPlan(job), JobEvent(job, ReplacementTrace));
    AdvanceAt(w, job, AtOnce(LeaseReserved, false, false), EffectApplied);
    FinishDrive(WorldAt(w, job, AtOnce(LeaseReserved, false, false)), DriveEffect(plan, LeaseReserved, e));
    LogIs(w, job, AtOnce(EffectApplied, false, false));
    FinishDrive(WorldAt(w, job, AtOnce(EffectApplied, false, false)), DriveReadback(plan, EffectApplied, e));
  }

  lemma Commits(w: World, job: Job)
    requires JobReady(w, job)
    ensures var (plan, e) := (OwnPlan(job), JobEvent(job, ReplacementTrace));
            Finish(WorldAt(w, job, AtOnce(EffectApplied, false, false)), Drive(DriveVerify(plan, EffectApplied, e)))
            == Finish(WorldAt(w, job, AtOnce(ReadbackVerified, true, false)),
                      Drive(DriveLocal(plan, ReadbackVerified, SuccessorAt(job, AtOnce(ReadbackVerified, true, false)))))
  {
    hide Finish, JobReady, WorldAt, AdvanceSaga, CommitReplacement;
    IdsAt(w, job);
    var (plan, e) := (OwnPlan(job), JobEvent(job, ReplacementTrace));
    AdvanceAt(w, job, AtOnce(EffectApplied, false, false), ReadbackVerified);
    FinishDrive(WorldAt(w, job, AtOnce(EffectApplied, false, false)), DriveVerify(plan, EffectApplied, e));
    CommitAt(w, job, AtOnce(ReadbackVerified, false, false));
    FinishDrive(WorldAt(w, job, AtOnce(ReadbackVerified, false, false)), DriveCommit(plan, ReadbackVerified, e));
  }

  lemma Finalizes(w: World, job: Job)
    requires JobReady(w, job)
    ensures var (plan, s) := (OwnPlan(job), SuccessorAt(job, AtOnce(ReadbackVerified, true, false)));
            Finish(WorldAt(w, job, AtOnce(ReadbackVerified, true, false)), Drive(DriveLocal(plan, ReadbackVerified, s)))
            == (WorldAt(w, job, AtOnce(LeaseFinalized, true, true)), Returned(s))
  {
    hide Finish, JobReady, WorldAt, AdvanceSaga, InstanceEffects.Finalize;
    IdsAt(w, job);
    var (plan, s) := (OwnPlan(job), SuccessorAt(job, AtOnce(ReadbackVerified, true, false)));
    AdvanceAt(w, job, AtOnce(ReadbackVerified, true, false), LocalCommitted);
    FinishDrive(WorldAt(w, job, AtOnce(ReadbackVerified, true, false)), DriveLocal(plan, ReadbackVerified, s));
    FinalizeAt(w, job, AtOnce(LocalCommitted, true, false));
    FinishDrive(WorldAt(w, job, AtOnce(LocalCommitted, true, false)), DriveFinalize(plan, LocalCommitted, s));
    AdvanceAt(w, job, AtOnce(LocalCommitted, true, true), LeaseFinalized);
    FinishDrive(WorldAt(w, job, AtOnce(LocalCommitted, true, true)), DriveFinish(plan, s));
    FinishDone(WorldAt(w, job, AtOnce(LeaseFinalized, true, true)), Returned(s));
  }

  /** Uninterrupted, the call that created the successor ends in the same place. */
  lemma ReplaceEnds(w: World, job: Job)
    requires JobOk(w, job) && JobReady(w, job)
    ensures var end := AtOnce(LeaseFinalized, true, true);
            && Ended(end)
            && Finish(w, AfterCreate(job, job.p.version)) == (WorldAt(w, job, end), Returned(SuccessorAt(job, end)))
  {
    hide JobOk, JobReady, WorldAt, Finish;
    IdsAt(w, job);
    Begins(w, job);
    WritesEvent(w, job);
    ReadsBack(w, job);
    Commits(w, job);
    Finalizes(w, job);
  }

  // ---------------------------------------------------------------- the theorem

  /**
   Cut the call that created the successor anywhere; retry it and run recovery
   any number of times, each cut anywhere.  One recovery that is not cut then
   ends with everything done once, and another one changes nothing.
   */
  lemma ReplacementConverges(w: World, job: Job, expected: nat, first: nat, attempts: seq<Attempt>) returns (trace: Trace)
    requires JobOk(w, job)
    requires forall i :: 0 <= i < |attempts| ==> Fits(job, attempts[i])
    ensures var (w', o) := Finish(AfterAttempts(w, job, expected, first, attempts), RecoverEntry(job));
            && ReplacedOnce(w, w', job, trace)
            && o.Returned? && o.binding.id == job.s.id && w'.t.bindings[job.s.id] == o.binding
            && Finish(w', RecoverEntry(job)) == (w', o)
            && (trace == ReplacementTrace ==> (w', o) == Finish(w, AfterCreate(job, job.p.version)))
    ensures trace in {ReplacementTrace, ColdRecoveryTrace}
  {
    hide JobOk, WorldAt, Finish, JobReady, ReplacedOnce, Knows;
    JobIsReady(w, job);
    IdsAt(w, job);
    var pr := AttemptsStop(w, job, expected, first, attempts);
    Entries(w, job, pr, ReplaceCmd(job.p.id, job.s.request, "", 0, 0, job.key, 0), expected);
    var end := RecoveryEnds(w, job, pr, RecoverEntry(job));
    EndIs(w, job, end);
    Entries(w, job, end, ReplaceCmd(job.p.id, job.s.request, "", 0, 0, job.key, 0), expected);
    var again := RecoveryEnds(w, job, end, RecoverEntry(job));
    SameEnd(w, job, again, end);
    ReplaceEnds(w, job);
    trace := end.trace.value;
    if trace == ReplacementTrace {
      SameEnd(w, job, end, AtOnce(LeaseFinalized, true, true));
    }
  }

  // ---------------------------------------------------------------- where jobs come from

  /** What replace_instance has checked and done by the time it creates the successor. */
  ghost predicate AboutToCreate(w: World, cmd: ReplaceCmd, p: Binding, prior: HazelEvent) {
    && p.id in w.t.bindings && w.t.bindings[p.id] == p
    && ByIdempotency(w.t.bindings, cmd.request.key).None?
    && cmd.key in w.t.sagas && w.t.sagas[cmd.key].state == LeaseReserved
    && p.id in w.t.recent && w.t.recent[p.id] == cmd.key
    && InstanceTables.Lookup(w.t.journal, cmd.key).None? && InstanceTables.Lookup(w.t.journal, cmd.key + ":successor").None?
    && cmd.key + ":successor" != cmd.request.key + ":prepared" && cmd.key != cmd.request.key + ":prepared"
    && |Run(w.hazel, p.lineage)| == p.checkpointVersion && Run(w.hazel, p.lineage) != [] && prior == Last(Run(w.hazel, p.lineage))
    && cmd.request.leaseId in w.leases
    && cmd.request.key in w.leases[cmd.request.leaseId].reservations
    && w.leases[cmd.request.leaseId].reservations[cmd.request.key] == BindUse(BindingOf(cmd.request))
    && p.lineage.ocs in w.profiles && w.profiles[p.lineage.ocs] == p.profile
    && w.leases[cmd.request.leaseId].authorityRef == p.profile.authorityRef
  }

  function SuccessorOf(w: World, cmd: ReplaceCmd, p: Binding): Binding
    requires cmd.request.leaseId in w.leases
  {
    SuccessorBinding(p, cmd.request, w.leases[cmd.request.leaseId].authorityRef, cmd.now)
  }

  lemma Created(w: World, cmd: ReplaceCmd, p: Binding, prior: HazelEvent, st: SagaState)
    requires Inv(w) && ReplaceInv(w, CreateSuccessor(cmd, p, prior, st)) && AboutToCreate(w, cmd, p, prior)
    requires CreateSuccessorStep(w, cmd, p, prior, st).1.Drive?
    ensures var r := CreateSuccessorStep(w, cmd, p, prior, st); var s := SuccessorOf(w, cmd, p);
            && r.0 == w.(t := w.t.(bindings := w.t.bindings[s.id := s], journal := w.t.journal + [PreparedEvent(s)]))
            && s.id !in w.t.bindings
            && r.1 == Drive(DriveRecover(ReplacePlanOf(cmd, p, s, prior), st))
  {
    hide Inv, ReplaceInv, Create, HasKey, ActiveExists, GenerationTaken, ReplacePlanOf;
    var s := SuccessorOf(w, cmd, p);
    if Create(w.t, s).Ok? {
      CreateShape(w.t, s);
    }
  }

  /** The step that creates the successor turns the call into a job. */
  lemma JobArises(w: World, cmd: ReplaceCmd, p: Binding, prior: HazelEvent)
    requires Inv(w) && ReplaceInv(w, CreateSuccessor(cmd, p, prior, LeaseReserved)) && AboutToCreate(w, cmd, p, prior)
    requires CreateSuccessorStep(w, cmd, p, prior, LeaseReserved).1.Drive?
    ensures var r := CreateSuccessorStep(w, cmd, p, prior, LeaseReserved);
            var job := Job(p, SuccessorOf(w, cmd, p), cmd.key, prior.payload);
            JobOk(r.0, job) && r.1 == AfterCreate(job, cmd.expected)
  {
    hide Inv, Seen, SagaSeen, CreateSuccessorStep, Create, BackedOk, LinkOk;
    Created(w, cmd, p, prior, LeaseReserved);
    CreateSuccessorLands(w, cmd, p, prior, LeaseReserved);
    var s := SuccessorOf(w, cmd, p);
    LookupAppend(w.t.journal, PreparedEvent(s), cmd.key);
    LookupAppend(w.t.journal, PreparedEvent(s), cmd.key + ":successor");
    SagaSeenFacts(w, cmd.key, p.id, cmd.request.leaseId);
    LastFact(w, p.lineage);
    assert s.id != p.id;
  }

  lemma SagaSeenFacts(w: World, key: Key, binding: BindingId, leaseId: string)
    requires SagaSeen(w, key, ReplacementSaga, binding, leaseId, LeaseReserved)
    ensures key in w.t.sagas && w.t.sagas[key].kind == ReplacementSaga && w.t.sagas[key].binding == binding && w.t.sagas[key].leaseId == leaseId
  {
  }

  // ---------------------------------------------------------------- when recovery cannot finish

  /** Hazel is one ahead, with something other than this replacement. */
  ghost predicate Overtaken(w: World, job: Job) {
    && Run(w.hazel, job.p.lineage) != []
    && var e := Last(Run(w.hazel, job.p.lineage));
    && e.version == job.p.checkpointVersion + 1
    && !IsReplacementOf(e, job.p, job.s, e.version)
  }

  lemma ToStalled(w: World, job: Job)
    requires PairReady(w, job) && SagaReady(w, job)
    ensures Finish(w, RecoverEntry(job))
            == Finish(w, Drive(DriveRecover(RecoveryPlan(job.p, job.s, job.key, job.s.leaseId), LeaseReserved)))
  {
    hide Inv, Finish, LatestBinding, SingleActive, Rows, UniqueKeys, UniqueGenerations, Linked;
    PredecessorFact(w, job.s.id);
    RowFact(w, job.s.id);
    ChainOf(w);
    PairLatest(w, job);
    OneActive(w.t.bindings, job.p.lineage);
    FinishRecover(w, ReadLatest(job.p.lineage));
    FinishRecover(w, CountActive(job.s));
    FinishRecover(w, ReadPredecessor(job.s));
    FinishRecover(w, ReadRecentSaga(job.p, job.s));
  }

  lemma PairLatest(w: World, job: Job)
    requires PairReady(w, job)
    ensures LatestBinding(w.t.bindings, job.s.lineage) == Some(job.s)
  {
    hide Inv, LocalIdentity, Rows, UniqueKeys, Linked, LatestBinding;
    ChainOf(w);
    forall id | id in w.t.bindings && w.t.bindings[id].lineage == job.s.lineage ensures w.t.bindings[id].generation <= job.s.generation {
      SuccessorIsNewest(w, job, id);
    }
    LatestUnique(w.t.bindings, job.s.id);
  }

  /**
   A checkpoint of the predecessor that Hazel accepted but the registry never
   committed: recovery gives up, and has already marked the saga EFFECT_APPLIED
   although Hazel holds no replacement of the predecessor.
   */
  lemma OvertakenRecoveryGivesUp(w: World, job: Job)
    requires PairReady(w, job) && SagaReady(w, job) && Overtaken(w, job)
    ensures var (w', o) := Finish(w, RecoverEntry(job));
            && o == Raised(ReadbackMismatch)
            && w' == w.(t := w.t.(sagas := w.t.sagas[job.key := w.t.sagas[job.key].(state := EffectApplied)]))
  {
    hide Inv, PairReady, Finish;
    ToStalled(w, job);
    var plan := RecoveryPlan(job.p, job.s, job.key, job.s.leaseId);
    var e := Last(Run(w.hazel, job.p.lineage));
    FinishDrive(w, DriveRecover(plan, LeaseReserved));
    FinishDrive(w, DriveEffect(plan, LeaseReserved, e));
    var w' := w.(t := w.t.(sagas := w.t.sagas[job.key := w.t.sagas[job.key].(state := EffectApplied)]));
    assert w.t.recent[job.p.id := job.key] == w.t.recent;
    FinishDrive(w', DriveReadback(plan, EffectApplied, e));
    FinishDone(w', Raised(ReadbackMismatch));
  }
}
