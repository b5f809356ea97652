/**
 The read model of app/command/instance_views.py over the registry: who the
 worker of a lineage is, and when a recovery counts as proven.
 */
module InstanceViews {
  import opened Prelude
  import opened InstanceContracts
  import opened InstanceTables
  import opened InstanceEffects
  import opened InstanceProtocol
  import opened InstanceChain
  import opened InstanceInvariant
  import opened InstanceCalls
  import opened InstanceRuns
  import opened InstanceProperties
  import opened InstanceReplacing
  import opened InstanceConvergence

  // ---------------------------------------------------------------- _fencing

  function LineageRows(bs: map<BindingId, Binding>, l: Lineage): set<BindingId> {
    set id | id in bs && bs[id].lineage == l
  }

  function WithStatus(bs: map<BindingId, Binding>, l: Lineage, statuses: set<Status>): set<BindingId> {
    set id | id in bs && bs[id].lineage == l && bs[id].status in statuses
  }

  const NONTERMINAL: set<Status> := {Prepared, Persisted, Bound, Active, Checkpointed}
  const WORKER_STATES: set<Status> := {Bound, Active, Checkpointed}

  /** _generation_has_platform: a platform receipt, neither NULL nor empty. */
  predicate GenerationHasPlatform(bs: map<BindingId, Binding>, l: Lineage, g: nat) {
    exists id :: id in bs && bs[id].lineage == l && bs[id].generation == g && bs[id].platform.Some? && bs[id].platform.value != ""
  }

  function WorkerRows(bs: map<BindingId, Binding>, l: Lineage): set<BindingId> {
    set id | id in WithStatus(bs, l, WORKER_STATES) && GenerationHasPlatform(bs, l, bs[id].generation)
  }

  /** _lineage_has_pending_replacement. */
  predicate PendingReplacement(t: Tables, l: Lineage) {
    exists k ::
      && k in t.sagas && t.sagas[k].kind == ReplacementSaga && t.sagas[k].state != LeaseFinalized
      && t.sagas[k].binding in t.bindings && t.bindings[t.sagas[k].binding].lineage == l
  }

  predicate Ambiguous(t: Tables, l: Lineage) {
    || LineageRows(t.bindings, l) == {}
    || |WithStatus(t.bindings, l, {Active})| > 1
    || |WithStatus(t.bindings, l, NONTERMINAL)| > 1
    || |WorkerRows(t.bindings, l)| != 1
    || PendingReplacement(t, l)
  }

  lemma SingletonHasOne<T>(s: set<T>)
    requires |s| == 1
    ensures exists x :: x in s && forall y :: y in s ==> y == x
  {
    var x :| x in s;
    forall y | y in s ensures y == x {
      SingletonSame(s, x, y);
    }
  }

  lemma SingletonSame<T>(s: set<T>, x: T, y: T)
    requires |s| <= 1 && x in s && y in s
    ensures x == y
  {
    var rest := s - {x};
    assert |rest| == 0;
    assert y !in rest;
  }

  function TheOne<T(==)>(s: set<T>): (x: T)
    requires |s| == 1
    ensures s == {x}
  {
    SingletonHasOne(s);
    var x :| x in s && forall y :: y in s ==> y == x;
    x
  }

  /** current_worker_generation. */
  function WorkerGeneration(t: Tables, l: Lineage): Option<nat> {
    if Ambiguous(t, l) then None
    else Some(t.bindings[TheOne(WorkerRows(t.bindings, l))].generation)
  }

  /** A worker that nothing is about to replace. */
  ghost predicate Undisputed(t: Tables, id: BindingId) {
    && id in t.bindings && t.bindings[id].status in WORKER_STATES
    && GenerationHasPlatform(t.bindings, t.bindings[id].lineage, t.bindings[id].generation)
    && (forall j :: j in t.bindings && t.bindings[j].predecessor == Some(id) ==> t.bindings[j].status != Prepared)
    && !PendingReplacement(t, t.bindings[id].lineage)
  }

  ghost predicate UndisputedWorker(t: Tables, l: Lineage, g: nat, id: BindingId) {
    Undisputed(t, id) && t.bindings[id].lineage == l && t.bindings[id].generation == g
  }

  /** Beside an undisputed worker, a lineage has only replaced bindings of lower generations. */
  lemma OthersReplaced(w: World, id: BindingId, j: BindingId)
    requires Inv(w) && Undisputed(w.t, id) && j in w.t.bindings && w.t.bindings[j].lineage == w.t.bindings[id].lineage && j != id
    ensures w.t.bindings[j].status == Replaced && w.t.bindings[j].generation < w.t.bindings[id].generation
  {
    hide Inv, Rows, UniqueGenerations, Linked, PendingReplacement, GenerationHasPlatform;
    ChainOf(w);
    if w.t.bindings[id].generation < w.t.bindings[j].generation {
      RowAbove(w.t.bindings, id, j);
    } else if w.t.bindings[j].generation < w.t.bindings[id].generation {
      RowAbove(w.t.bindings, j, id);
    } else {
      SameGeneration(w.t.bindings, id, j);
    }
  }

  lemma SameGeneration(bs: map<BindingId, Binding>, i: BindingId, j: BindingId)
    requires UniqueGenerations(bs) && i in bs && j in bs
    ensures bs[i].lineage == bs[j].lineage && bs[i].generation == bs[j].generation ==> i == j
  {
  }

  /** A generation that the view names as the worker belongs to an undisputed worker. */
  lemma NamedIsUndisputed(w: World, l: Lineage) returns (id: BindingId)
    requires Inv(w) && WorkerGeneration(w.t, l).Some?
    ensures Undisputed(w.t, id) && w.t.bindings[id].lineage == l && WorkerGeneration(w.t, l) == Some(w.t.bindings[id].generation)
  {
    hide Inv, PendingReplacement, GenerationHasPlatform;
    var bs := w.t.bindings;
    id := TheOne(WorkerRows(bs, l));
    assert id in WorkerRows(bs, l) && id in WithStatus(bs, l, NONTERMINAL);
    forall j | j in bs && bs[j].predecessor == Some(id) ensures bs[j].status != Prepared {
      PredecessorLineage(w, j);
      if bs[j].status == Prepared {
        assert j in WithStatus(bs, l, NONTERMINAL);
        SingletonSame(WithStatus(bs, l, NONTERMINAL), id, j);
      }
    }
  }

  lemma PredecessorLineage(w: World, j: BindingId)
    requires Inv(w) && j in w.t.bindings && w.t.bindings[j].predecessor.Some?
    ensures var p := w.t.bindings[j].predecessor.value;
            p in w.t.bindings && w.t.bindings[p].lineage == w.t.bindings[j].lineage && p != j
  {
    hide Inv, BackedOk;
    RowFact(w, j);
  }

  lemma UndisputedIsNamed(w: World, id: BindingId)
    requires Inv(w) && Undisputed(w.t, id)
    ensures WorkerGeneration(w.t, w.t.bindings[id].lineage) == Some(w.t.bindings[id].generation)
  {
    hide Inv, PendingReplacement, GenerationHasPlatform;
    var bs, l := w.t.bindings, w.t.bindings[id].lineage;
    forall j | j in bs && bs[j].lineage == l && j != id ensures bs[j].status == Replaced {
      OthersReplaced(w, id, j);
    }
    assert WorkerRows(bs, l) == {id};
    assert WithStatus(bs, l, NONTERMINAL) == {id};
    assert WithStatus(bs, l, {Active}) <= {id};
    assert WithStatus(bs, l, {Active}) == {id} || WithStatus(bs, l, {Active}) == {};
  }

  /**
   The view names a worker exactly when the lineage has an undisputed one; its
   generation is then the latest, and every other binding has been replaced.
   */
  lemma WorkerNeverMisreported(w: World, l: Lineage, g: nat)
    requires Reachable(w)
    ensures WorkerGeneration(w.t, l) == Some(g) <==> exists id :: UndisputedWorker(w.t, l, g, id)
    ensures WorkerGeneration(w.t, l) == Some(g) ==>
              && IsLatestGeneration(w.t.bindings, l, g)
              && |WithStatus(w.t.bindings, l, NONTERMINAL)| == 1
  {
    hide Inv, Reachable, Undisputed, WorkerGeneration, WithStatus;
    ReachableInv(w);
    if WorkerGeneration(w.t, l) == Some(g) {
      var id := NamedIsUndisputed(w, l);
      NamedIsLatest(w, id);
      assert UndisputedWorker(w.t, l, g, id);
    }
    forall id | UndisputedWorker(w.t, l, g, id)
      ensures WorkerGeneration(w.t, l) == Some(g)
    {
      UndisputedIsNamed(w, id);
    }
  }

  lemma NamedIsLatest(w: World, id: BindingId)
    requires Inv(w) && Undisputed(w.t, id)
    ensures IsLatestGeneration(w.t.bindings, w.t.bindings[id].lineage, w.t.bindings[id].generation)
    ensures |WithStatus(w.t.bindings, w.t.bindings[id].lineage, NONTERMINAL)| == 1
  {
    hide Inv, PendingReplacement, GenerationHasPlatform;
    var bs, l := w.t.bindings, w.t.bindings[id].lineage;
    forall j | j in bs && bs[j].lineage == l && j != id ensures bs[j].status == Replaced && bs[j].generation <= bs[id].generation {
      OthersReplaced(w, id, j);
    }
    assert WithStatus(bs, l, NONTERMINAL) == {id};
    assert GenerationTaken(bs, l, bs[id].generation);
  }

  // ---------------------------------------------------------------- _recovery_proof

  function PredecessorOf(t: Tables, b: Binding): Option<Binding> {
    if b.predecessor.Some? && b.predecessor.value in t.bindings then Some(t.bindings[b.predecessor.value]) else None
  }

  /** The latest replacement saga of the binding is LEASE_FINALIZED. */
  predicate SagaFinalized(t: Tables, p: BindingId) {
    RecentSaga(t, p).Some? && t.sagas[RecentSaga(t, p).value].state == LeaseFinalized
  }

  predicate RecoveryComplete(t: Tables, current: Binding, predecessor: Option<Binding>) {
    && predecessor.Some?
    && current.generation == predecessor.value.generation + 1
    && current.checkpointVersion == predecessor.value.checkpointVersion + 1
    && current.checkpoint.Some?
    && current.eventHash.Some?
    && current.profile == predecessor.value.profile && current.authorityRef == predecessor.value.authorityRef
    && (exists e :: e in History(t.journal, current.id) && e.kind == ReplacementPersisted)
    && SagaFinalized(t, predecessor.value.id)
  }

  predicate Proven(t: Tables, id: BindingId) {
    id in t.bindings && RecoveryComplete(t, t.bindings[id], PredecessorOf(t, t.bindings[id]))
  }

  /** The journal has the binding's own REPLACEMENT_PERSISTED row exactly when it has left PREPARED as a successor. */
  lemma PersistedRow(w: World, id: BindingId)
    requires Inv(w) && id in w.t.bindings
    ensures (exists e :: e in History(w.t.journal, id) && e.kind == ReplacementPersisted)
            <==> w.t.bindings[id].predecessor.Some? && w.t.bindings[id].status != Prepared
  {
    hide Inv, History, LinkOk, BackedOk;
    HistoryFact(w, id);
    RowFact(w, id);
    var hist := History(w.t.journal, id);
    if w.t.bindings[id].predecessor.Some? && w.t.bindings[id].status != Prepared {
      assert EntryOk(hist, 1, true);
      assert hist[1] in hist;
    }
    forall i | 0 <= i < |hist| && hist[i].kind == ReplacementPersisted
      ensures w.t.bindings[id].predecessor.Some? && w.t.bindings[id].status != Prepared
    {
      assert EntryOk(hist, i, w.t.bindings[id].predecessor.Some?);
    }
  }

  /** What a complete proof amounts to in a state the system can reach. */
  lemma ProvenExactlyWhen(w: World, id: BindingId)
    requires Reachable(w) && id in w.t.bindings
    ensures var b := w.t.bindings[id];
            Proven(w.t, id) <==>
              && b.predecessor.Some? && b.predecessor.value in w.t.bindings
              && b.status != Prepared
              && w.t.bindings[b.predecessor.value].status == Replaced
              && b.checkpointVersion == w.t.bindings[b.predecessor.value].checkpointVersion + 1
              && SagaFinalized(w.t, b.predecessor.value)
  {
    hide Inv, Reachable;
    ReachableInv(w);
    ProvenWhen(w, id);
  }

  lemma ProvenWhen(w: World, id: BindingId)
    requires Inv(w) && id in w.t.bindings
    ensures var b := w.t.bindings[id];
            Proven(w.t, id) <==>
              && b.predecessor.Some? && b.predecessor.value in w.t.bindings
              && b.status != Prepared
              && w.t.bindings[b.predecessor.value].status == Replaced
              && b.checkpointVersion == w.t.bindings[b.predecessor.value].checkpointVersion + 1
              && SagaFinalized(w.t, b.predecessor.value)
  {
    hide Inv, SagaFinalized, History;
    RowFact(w, id);
    PersistedRow(w, id);
    if w.t.bindings[id].predecessor.Some? {
      PredecessorLineage(w, id);
      RowFact(w, w.t.bindings[id].predecessor.value);
    }
  }

  /** A replaced row never changes again. */
  lemma ReplacedStays(s: System, hs: seq<Happening>, id: BindingId)
    requires SystemInv(s) && id in s.w.t.bindings && s.w.t.bindings[id].status == Replaced
    ensures id in Exec(s, hs).w.t.bindings && Exec(s, hs).w.t.bindings[id] == s.w.t.bindings[id]
  {
    hide SystemInv, Exec, LogsLater, SagasLater, JournalLater, LeasesLater, Rows;
    ExecOk(s, hs);
    SystemRows(Exec(s, hs));
    assert RowLater(s.w.t.bindings[id], Exec(s, hs).w.t.bindings[id]);
    RowAt(Exec(s, hs).w.t.bindings, id);
  }

  lemma SystemIsInv(s: System)
    requires SystemInv(s)
    ensures Inv(s.w)
  {
    hide Inv, CallsOk;
  }

  lemma ProvenParts(s: System, id: BindingId)
    requires SystemInv(s) && Proven(s.w.t, id)
    ensures var b := s.w.t.bindings[id];
            && b.predecessor.Some? && b.predecessor.value in s.w.t.bindings && b.status != Prepared
            && s.w.t.bindings[b.predecessor.value].status == Replaced
            && b.checkpointVersion == s.w.t.bindings[b.predecessor.value].checkpointVersion + 1
  {
    hide SystemInv, Inv, RecoveryComplete;
    SystemIsInv(s);
    ProvenWhen(s.w, id);
  }

  /**
   A complete proof stays complete, through any run, exactly as long as the
   successor has taken no checkpoint of its own and no later replacement saga
   of the predecessor is unfinished; InstanceProofSteps says which steps and
   which calls can bring that about.
   */
  lemma ProofStays(s: System, hs: seq<Happening>, id: BindingId)
    requires SystemInv(s) && Proven(s.w.t, id)
    ensures id in Exec(s, hs).w.t.bindings
    ensures var t' := Exec(s, hs).w.t;
            Proven(t', id) <==>
              && t'.bindings[id].checkpointVersion == s.w.t.bindings[id].checkpointVersion
              && SagaFinalized(t', s.w.t.bindings[id].predecessor.value)
  {
    hide SystemInv, Inv, Exec, LogsLater, SagasLater, JournalLater, LeasesLater, Proven, SagaFinalized;
    ProvenParts(s, id);
    ProvenIn(s.w.t, id);
    var p := s.w.t.bindings[id].predecessor.value;
    ExecOk(s, hs);
    ReplacedStays(s, hs, p);
    SystemIsInv(Exec(s, hs));
    ProvenWhen(Exec(s, hs).w, id);
    assert RowLater(s.w.t.bindings[id], Exec(s, hs).w.t.bindings[id]);
  }

  lemma ProvenIn(t: Tables, id: BindingId)
    requires Proven(t, id)
    ensures id in t.bindings
  {
    hide RecoveryComplete;
  }

  /** Where a replacement ends, the view reports its recovery as proven. */
  lemma ReplacementIsProven(w: World, w': World, job: Job, trace: Trace)
    requires JobReady(w, job) && ReplacedOnce(w, w', job, trace) && Inv(w')
    ensures Proven(w'.t, job.s.id)
  {
    hide Inv, Proven, HazelReady, LeaseReady, IsReplacedRow, IsPersistedRow, Settled;
    ProvenWhen(w', job.s.id);
  }
}
