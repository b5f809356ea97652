/**
 Replacement converges.  Once the successor row exists, every world that calls
 of replace_instance and recover_instance can leave behind, wherever they are
 cut, is one of a few stages; from each of them recovery reaches the same end.
 */
module InstanceReplacing {
  import opened Prelude
  import opened InstanceContracts
  import opened InstanceTables
  import opened InstanceEffects
  import opened InstanceProtocol
  import opened InstanceChain
  import opened InstanceInvariant
  import opened InstanceCalls
  import opened InstanceProperties
  import opened InstanceFinish

  /** A replacement whose successor row has just been created. */
  datatype Job = Job(p: Binding, s: Binding, key: Key, carried: Payload)

  /** How far it has come; `trace` tells which of the two callers wrote the Hazel event. */
  datatype Progress = Progress(trace: Option<Trace>, state: SagaState, committed: bool, settled: bool)

  const START: Progress := Progress(None, LeaseReserved, false, false)

  function JobPayload(job: Job): Payload {
    ReplacementPayload(job.s.id, job.s.generation, job.p.id, job.carried, job.s.bootstrap)
  }

  function JobEvent(job: Job, trace: Trace): HazelEvent {
    HazelEvent(job.p.lineage, job.p.checkpointVersion + 1, job.p.eventHash, JobPayload(job), trace)
  }

  function JobArgs(job: Job, trace: Trace): CommitArgs {
    var e := JobEvent(job, trace);
    CommitArgs(job.p.id, job.p.version, job.s.id, 1, job.key, e.version, e.payload, Sha(e))
  }

  predicate Fine(pr: Progress) {
    && (pr.trace.None? ==> pr.state == LeaseReserved && !pr.committed)
    && (pr.trace.Some? ==> pr.trace.value in {ReplacementTrace, ColdRecoveryTrace})
    && (Rank(pr.state) >= 3 ==> pr.committed)
    && (pr.committed ==> Rank(pr.state) >= 2)
    && (pr.settled ==> pr.committed)
    && (pr.state == LeaseFinalized ==> pr.settled)
  }

  predicate Ended(pr: Progress) {
    Fine(pr) && pr.state == LeaseFinalized
  }

  function PredecessorAt(job: Job, pr: Progress): Binding {
    if pr.committed then CommittedPredecessor(job.p) else job.p
  }

  function SuccessorAt(job: Job, pr: Progress): Binding
    requires Fine(pr)
  {
    if pr.committed then CommittedSuccessor(job.s, JobArgs(job, pr.trace.value)) else job.s
  }

  function BindingsAt(w: World, job: Job, pr: Progress): map<BindingId, Binding>
    requires Fine(pr)
  {
    if pr.committed then w.t.bindings[job.p.id := PredecessorAt(job, pr)][job.s.id := SuccessorAt(job, pr)] else w.t.bindings
  }

  function JournalAt(w: World, job: Job, pr: Progress): seq<JournalEvent>
    requires Fine(pr)
  {
    if pr.committed then
      var es := CommitEvents(job.p, job.s, JobArgs(job, pr.trace.value));
      w.t.journal + [es.0] + [es.1]
    else w.t.journal
  }

  function LogAt(w: World, job: Job, pr: Progress): seq<HazelEvent> {
    Run(w.hazel, job.p.lineage) + (if pr.trace.Some? then [JobEvent(job, pr.trace.value)] else [])
  }

  function LeasesAt(w: World, job: Job, pr: Progress): Leases {
    if pr.settled && Finalize(w.leases, job.s.leaseId).Ok? then Finalize(w.leases, job.s.leaseId).value else w.leases
  }

  /** The world `w`, in which the successor was created, at a later stage of the replacement. */
  function WorldAt(w: World, job: Job, pr: Progress): World
    requires Fine(pr) && job.key in w.t.sagas
  {
    World(w.profiles,
          Tables(BindingsAt(w, job, pr), JournalAt(w, job, pr),
                 w.t.sagas[job.key := w.t.sagas[job.key].(state := pr.state)], w.t.recent),
          if pr.trace.Some? then w.hazel[job.p.lineage := LogAt(w, job, pr)] else w.hazel,
          LeasesAt(w, job, pr))
  }

  ghost predicate RowsReady(w: World, job: Job) {
    && job.p.id in w.t.bindings && w.t.bindings[job.p.id] == job.p && job.p.status == Checkpointed
    && job.s.id in w.t.bindings && w.t.bindings[job.s.id] == job.s && job.s.status == Prepared
    && job.s.predecessor == Some(job.p.id)
  }

  ghost predicate SagaReady(w: World, job: Job) {
    && job.key in w.t.sagas
    && w.t.sagas[job.key].kind == ReplacementSaga && w.t.sagas[job.key].binding == job.p.id
    && w.t.sagas[job.key].leaseId == job.s.leaseId && w.t.sagas[job.key].state == LeaseReserved
    && job.p.id in w.t.recent && w.t.recent[job.p.id] == job.key
    && InstanceTables.Lookup(w.t.journal, job.key).None? && InstanceTables.Lookup(w.t.journal, job.key + ":successor").None?
  }

  /** Hazel stands at the predecessor's checkpoint. */
  ghost predicate HazelReady(w: World, job: Job) {
    && |Run(w.hazel, job.p.lineage)| == job.p.checkpointVersion
    && Run(w.hazel, job.p.lineage) != []
    && Last(Run(w.hazel, job.p.lineage)).payload == job.carried
  }

  predicate LeaseReady(w: World, job: Job) {
    && job.s.leaseId in w.leases
    && job.s.key in w.leases[job.s.leaseId].reservations
    && w.leases[job.s.leaseId].reservations[job.s.key] == BindUse(job.s.id)
  }

  ghost predicate PairReady(w: World, job: Job) {
    Inv(w) && RowsReady(w, job) && LocalIdentity(w, job.s)
  }

  /** What holds when replace_instance has created the successor and nothing else has moved. */
  ghost predicate JobOk(w: World, job: Job) {
    PairReady(w, job) && SagaReady(w, job) && HazelReady(w, job) && LeaseReady(w, job)
  }

  // ---------------------------------------------------------------- facts about a job

  /** Everything the proofs need of the invariant. */
  ghost predicate JobFacts(w: World, job: Job) {
    && job.p.id != job.s.id && job.p.lineage == job.s.lineage && job.s.version == 1
    && job.s.key == job.s.request.key && job.s.leaseId == job.s.request.leaseId && job.s.id == BindingOf(job.s.request)
    && SameLineage(job.s, job.p)
    && Run(w.hazel, job.p.lineage) != [] && job.s.leaseId in w.leases
    && job.p.eventHash == Some(Sha(Last(Run(w.hazel, job.p.lineage))))
    && Last(Run(w.hazel, job.p.lineage)).version == job.p.checkpointVersion
    && job.p.checkpoint == Some(job.carried)
    && w.leases[job.s.leaseId].state != LeaseActive
  }

  lemma JobHas(w: World, job: Job)
    requires JobOk(w, job)
    ensures JobFacts(w, job)
  {
    hide Inv, LinkOk, LocalIdentity, SagaEffect, SagaRows, SagaJournal;
    RowFact(w, job.p.id);
    RowFact(w, job.s.id);
    LastFact(w, job.p.lineage);
    SagaFact(w, job.key);
    PredecessorFact(w, job.s.id);
  }

  lemma PredecessorFact(w: World, id: BindingId)
    requires Inv(w) && id in w.t.bindings && w.t.bindings[id].predecessor.Some?
    ensures w.t.bindings[id].predecessor.value in w.t.bindings
    ensures SameLineage(w.t.bindings[id], w.t.bindings[w.t.bindings[id].predecessor.value])
    ensures w.t.bindings[id].predecessor.value != id
  {
    hide Inv, BackedOk;
    RowFact(w, id);
  }

  ghost predicate JobReady(w: World, job: Job) {
    RowsReady(w, job) && SagaReady(w, job) && HazelReady(w, job) && LeaseReady(w, job) && JobFacts(w, job)
  }

  // ---------------------------------------------------------------- reads and writes at a stage

  lemma LogIs(w: World, job: Job, pr: Progress)
    requires JobReady(w, job) && Fine(pr)
    ensures Run(WorldAt(w, job, pr).hazel, job.p.lineage) == LogAt(w, job, pr) && LogAt(w, job, pr) != []
    ensures pr.trace.Some? ==> Last(LogAt(w, job, pr)) == JobEvent(job, pr.trace.value)
    ensures pr.trace.None? ==> LogAt(w, job, pr) == Run(w.hazel, job.p.lineage)
  {
  }

  lemma PersistAt(w: World, job: Job, pr: Progress, trace: Trace)
    requires JobReady(w, job) && Fine(pr) && pr.trace.None? && trace in {ReplacementTrace, ColdRecoveryTrace}
    ensures Persist(WorldAt(w, job, pr).hazel, JobEvent(job, trace)) == Ok(WorldAt(w, job, pr.(trace := Some(trace))).hazel)
    ensures WorldAt(w, job, pr).(hazel := WorldAt(w, job, pr.(trace := Some(trace))).hazel) == WorldAt(w, job, pr.(trace := Some(trace)))
  {
  }

  lemma AdvanceAt(w: World, job: Job, pr: Progress, to: SagaState)
    requires JobReady(w, job) && Fine(pr) && Fine(pr.(state := to))
    ensures AdvanceSaga(WorldAt(w, job, pr).t, job.key, pr.state, to) == Ok((WorldAt(w, job, pr.(state := to)).t, to))
    ensures WorldAt(w, job, pr).(t := WorldAt(w, job, pr.(state := to)).t) == WorldAt(w, job, pr.(state := to))
  {
    var t, t' := WorldAt(w, job, pr).t, WorldAt(w, job, pr.(state := to)).t;
    assert t.recent[job.p.id := job.key] == t.recent;
    assert t.sagas[job.key := t.sagas[job.key].(state := to)] == t'.sagas;
  }

  lemma CommitAt(w: World, job: Job, pr: Progress)
    requires JobReady(w, job) && Fine(pr) && pr.trace.Some? && !pr.committed && Rank(pr.state) >= 2
    ensures var pr' := pr.(committed := true);
            CommitReplacement(WorldAt(w, job, pr).t, JobArgs(job, pr.trace.value))
              == Ok((WorldAt(w, job, pr').t, SuccessorAt(job, pr')))
    ensures WorldAt(w, job, pr).(t := WorldAt(w, job, pr.(committed := true)).t) == WorldAt(w, job, pr.(committed := true))
  {
  }

  lemma FinalizeAt(w: World, job: Job, pr: Progress)
    requires JobReady(w, job) && Fine(pr) && pr.committed
    ensures Finalize(WorldAt(w, job, pr).leases, job.s.leaseId) == Ok(WorldAt(w, job, pr.(settled := true)).leases)
    ensures WorldAt(w, job, pr).(leases := WorldAt(w, job, pr.(settled := true)).leases) == WorldAt(w, job, pr.(settled := true))
  {
  }

  lemma ReserveAt(w: World, job: Job, pr: Progress)
    requires JobReady(w, job) && Fine(pr)
    ensures var r := Reserve(WorldAt(w, job, pr).leases, job.s.leaseId, job.s.key, BindUse(job.s.id));
            r.Ok? ==> r.value == WorldAt(w, job, pr).leases
  {
  }

  lemma JobIsReady(w: World, job: Job)
    requires JobOk(w, job)
    ensures JobReady(w, job)
  {
    hide Inv, RowsReady, SagaReady, HazelReady, LeaseReady, JobFacts, LocalIdentity;
    JobHas(w, job);
  }

  /** The rows of a stage still form one chain. */
  lemma StageRows(w: World, job: Job, pr: Progress)
    requires JobOk(w, job) && Fine(pr)
    ensures var bs := BindingsAt(w, job, pr); Rows(bs) && UniqueKeys(bs) && UniqueGenerations(bs) && Linked(bs)
  {
    hide Inv, Rows, UniqueKeys, UniqueGenerations, Linked, SagaReady, HazelReady, LeaseReady, LocalIdentity;
    JobIsReady(w, job);
    ChainOf(w);
    if pr.committed {
      var e := JobEvent(job, pr.trace.value);
      CommitKeepsRows(w.t.bindings, job.p.id, job.s.id, e);
      CommitKeepsUnique(w.t.bindings, job.p.id, job.s.id, e);
      CommitKeepsLinks(w.t.bindings, job.p.id, job.s.id, e);
      assert BindingsAt(w, job, pr) == AfterCommit(w.t.bindings, job.p.id, job.s.id, e);
    }
  }

  lemma RowsAt(w: World, job: Job, pr: Progress)
    requires JobReady(w, job) && Fine(pr)
    ensures var bs := BindingsAt(w, job, pr);
            && job.p.id in bs && bs[job.p.id] == PredecessorAt(job, pr)
            && job.s.id in bs && bs[job.s.id] == SuccessorAt(job, pr)
  {
    hide SagaReady, HazelReady, LeaseReady;
  }

  lemma FoundAt(w: World, job: Job, pr: Progress)
    requires JobOk(w, job) && Fine(pr)
    ensures ByIdempotency(BindingsAt(w, job, pr), job.s.request.key) == Some(SuccessorAt(job, pr))
  {
    hide Inv, JobOk, Rows, UniqueKeys, UniqueGenerations, Linked, BindingsAt;
    JobIsReady(w, job);
    StageRows(w, job, pr);
    RowsAt(w, job, pr);
    RowOfKey(BindingsAt(w, job, pr), job.s.id);
  }

  /** A prepared successor is the newest row of its lineage. */
  lemma SuccessorIsNewest(w: World, job: Job, id: BindingId)
    requires PairReady(w, job) && id in w.t.bindings && w.t.bindings[id].lineage == job.s.lineage
    ensures w.t.bindings[id].generation <= job.s.generation
  {
    hide Inv, LocalIdentity, Linked, UniqueGenerations, Rows;
    ChainOf(w);
    if w.t.bindings[id].generation > job.s.generation {
      RowAbove(w.t.bindings, job.s.id, id);
    }
  }

  lemma NewestAt(w: World, job: Job, pr: Progress)
    requires JobOk(w, job) && Fine(pr)
    ensures IsLatest(BindingsAt(w, job, pr), SuccessorAt(job, pr))
  {
    hide PairReady, SagaReady, HazelReady, LeaseReady;
    JobIsReady(w, job);
    RowsAt(w, job, pr);
    var bs, s := BindingsAt(w, job, pr), SuccessorAt(job, pr);
    forall id | id in bs && bs[id].lineage == s.lineage ensures bs[id].generation <= s.generation {
      SuccessorIsNewest(w, job, id);
    }
    assert bs[job.s.id].generation == s.generation;
  }

  lemma LatestUnique(bs: map<BindingId, Binding>, id: BindingId)
    requires UniqueGenerations(bs) && id in bs && IsLatest(bs, bs[id])
    ensures LatestBinding(bs, bs[id].lineage) == Some(bs[id])
  {
    var l := bs[id].lineage;
    forall i | i in bs && bs[i].lineage == l && IsLatest(bs, bs[i]) ensures i == id {
      assert bs[i].generation <= bs[id].generation && bs[id].generation <= bs[i].generation;
    }
  }

  lemma LatestAt(w: World, job: Job, pr: Progress)
    requires JobOk(w, job) && Fine(pr)
    ensures LatestBinding(BindingsAt(w, job, pr), job.p.lineage) == Some(SuccessorAt(job, pr))
  {
    hide Inv, JobOk, Rows, UniqueKeys, UniqueGenerations, Linked, BindingsAt, IsLatest, LatestBinding, SagaReady, HazelReady, LeaseReady;
    JobIsReady(w, job);
    StageRows(w, job, pr);
    RowsAt(w, job, pr);
    NewestAt(w, job, pr);
    LatestUnique(BindingsAt(w, job, pr), job.s.id);
  }

  lemma OneActive(bs: map<BindingId, Binding>, l: Lineage)
    requires Rows(bs) && UniqueGenerations(bs) && Linked(bs)
    ensures SingleActive(bs, l)
  {
    hide Rows, UniqueGenerations, Linked;
    forall i, j | i in bs && bs[i].lineage == l && bs[i].status == Active && j in bs && bs[j].lineage == l && bs[j].status == Active
      ensures i == j
    {
      HolderUnique(bs, i, j);
    }
  }

  lemma IdentityAt(w: World, job: Job, pr: Progress)
    requires JobOk(w, job) && Fine(pr)
    ensures LocalIdentity(WorldAt(w, job, pr), SuccessorAt(job, pr))
  {
    hide Inv, SagaReady, HazelReady, LeaseReady, BindingsAt, JournalAt, LogAt;
    JobIsReady(w, job);
  }
}
