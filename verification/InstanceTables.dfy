/**
 The registry tables of app/ocs_instances/store.py and the effect of each store
 call on them.  Every function is one transaction: it either returns the new
 tables or an error, in which case nothing was written.
 */
module InstanceTables {
  import opened Prelude
  import opened InstanceContracts

  /** `recent` answers "latest replacement saga of this binding by update time". */
  datatype Tables = Tables(
    bindings: map<BindingId, Binding>,
    journal: seq<JournalEvent>,
    sagas: map<Key, Saga>,
    recent: map<BindingId, Key>)

  const EMPTY: Tables := Tables(map[], [], map[], map[])

  /** The journal row stored under an idempotency key. */
  function Lookup(journal: seq<JournalEvent>, key: Key): Option<JournalEvent> {
    if journal == [] then None
    else if Last(journal).key == key then Some(Last(journal))
    else Lookup(DropLast(journal), key)
  }

  lemma LookupAppend(journal: seq<JournalEvent>, e: JournalEvent, key: Key)
    ensures Lookup(journal + [e], key) == if e.key == key then Some(e) else Lookup(journal, key)
  {
    DropLastAppend(journal, e);
  }

  lemma LookupIn(journal: seq<JournalEvent>, key: Key)
    ensures Lookup(journal, key).Some? ==>
              exists i :: 0 <= i < |journal| && journal[i] == Lookup(journal, key).value && journal[i].key == key
  {
    if journal != [] && Last(journal).key == key {
      assert journal[|journal| - 1].key == key;
    } else if journal != [] {
      LookupIn(DropLast(journal), key);
    }
  }

  /** The journal of one binding, in order of position. */
  function History(journal: seq<JournalEvent>, id: BindingId): seq<JournalEvent> {
    if journal == [] then []
    else if Last(journal).binding == id then History(DropLast(journal), id) + [Last(journal)]
    else History(DropLast(journal), id)
  }

  lemma HistoryAppend(journal: seq<JournalEvent>, e: JournalEvent, id: BindingId)
    ensures History(journal + [e], id) == if e.binding == id then History(journal, id) + [e] else History(journal, id)
  {
    DropLastAppend(journal, e);
  }

  ghost predicate HasKey(bindings: map<BindingId, Binding>, key: Key) {
    exists id :: id in bindings && bindings[id].key == key
  }

  ghost function ByIdempotency(bindings: map<BindingId, Binding>, key: Key): (r: Option<Binding>)
    ensures r.Some? ==> r.value.key == key && exists id :: id in bindings && bindings[id] == r.value
    ensures r.None? ==> !HasKey(bindings, key)
  {
    if HasKey(bindings, key) then
      var id :| id in bindings && bindings[id].key == key;
      Some(bindings[id])
    else
      None
  }

  /** Some binding of the lineage is not in a terminal status. */
  ghost predicate ActiveExists(bindings: map<BindingId, Binding>, l: Lineage) {
    exists id :: id in bindings && bindings[id].lineage == l && Nonterminal(bindings[id].status)
  }

  ghost predicate GenerationTaken(bindings: map<BindingId, Binding>, l: Lineage, g: nat) {
    exists id :: id in bindings && bindings[id].lineage == l && bindings[id].generation == g
  }

  /** UNIQUE(platform_instance_id). */
  ghost predicate PlatformTaken(bindings: map<BindingId, Binding>, self: BindingId, platform: string) {
    exists id :: id in bindings && id != self && bindings[id].platform == Some(platform)
  }

  /** The lineage fields that a successor must share with its predecessor. */
  predicate SameLineage(s: Binding, p: Binding) {
    && s.lineage == p.lineage
    && s.profile == p.profile
    && s.authorityRef == p.authorityRef
    && s.generation == p.generation + 1
  }

  function PreparedEvent(b: Binding): JournalEvent {
    JournalEvent(b.id, InstancePrepared, None, b.status, b.version, b.key + ":prepared", PreparedBody(b.profile))
  }

  ghost function Create(t: Tables, b: Binding): Result<(Tables, Binding)> {
    if b.status != Prepared || b.version != 1 then Err(InitialStateInvalid)
    else
      var existing := ByIdempotency(t.bindings, b.key);
      if existing.Some? then
        if existing.value.request != b.request then Err(IdempotencyConflict) else Ok((t, existing.value))
      else if b.predecessor.None? && ActiveExists(t.bindings, b.lineage) then Err(ActiveBindingExists)
      else if b.predecessor.Some? && b.predecessor.value !in t.bindings then Err(PredecessorNotFound)
      else if b.predecessor.Some? && !(t.bindings[b.predecessor.value].status == Checkpointed
                                       && SameLineage(b, t.bindings[b.predecessor.value])) then Err(LineageMismatch)
      else if b.id in t.bindings || GenerationTaken(t.bindings, b.lineage, b.generation)
              || (b.platform.Some? && PlatformTaken(t.bindings, b.id, b.platform.value))
              || Lookup(t.journal, b.key + ":prepared").Some? then Err(IntegrityRejected)
      else Ok((t.(bindings := t.bindings[b.id := b], journal := t.journal + [PreparedEvent(b)]), b))
  }

  datatype TransitionArgs = TransitionArgs(
    binding: BindingId,
    expected: nat,
    target: Status,
    key: Key,
    kind: EventType,
    note: Note,
    change: Change)

  /** The journal row already stored under the key is the same request. */
  predicate SameTransition(e: JournalEvent, a: TransitionArgs) {
    && e.binding == a.binding
    && e.kind == a.kind
    && e.to == a.target
    && e.body == TransitionBody(a.note, a.change)
  }

  function OrElse<T>(o: Option<T>, d: Option<T>): Option<T> {
    if o.Some? then o else d
  }

  function Updated(b: Binding, target: Status, c: Change): Binding {
    b.(status := target,
       version := b.version + 1,
       platform := OrElse(c.platform, b.platform),
       checkpointVersion := if c.checkpointVersion.Some? then c.checkpointVersion.value else b.checkpointVersion,
       checkpoint := OrElse(c.checkpoint, b.checkpoint),
       eventHash := OrElse(c.event, b.eventHash),
       maturity := if c.maturity.Some? then c.maturity.value else b.maturity)
  }

  ghost function Transition(t: Tables, a: TransitionArgs): Result<(Tables, Binding)> {
    var replay := Lookup(t.journal, a.key);
    if replay.Some? then
      if !SameTransition(replay.value, a) then Err(IdempotencyConflict)
      else if a.binding !in t.bindings then Err(BindingNotFound)
      else Ok((t, t.bindings[a.binding]))
    else if a.binding !in t.bindings then Err(BindingNotFound)
    else
      var current := t.bindings[a.binding];
      if current.version != a.expected then Err(VersionConflict)
      else if a.target !in Allowed(current.status) then Err(TransitionForbidden)
      else if a.change.platform.Some? && PlatformTaken(t.bindings, a.binding, a.change.platform.value) then Err(IntegrityRejected)
      else
        var updated := Updated(current, a.target, a.change);
        var e := JournalEvent(a.binding, a.kind, Some(current.status), a.target, updated.version, a.key, TransitionBody(a.note, a.change));
        Ok((t.(bindings := t.bindings[a.binding := updated], journal := t.journal + [e]), updated))
  }

  datatype CommitArgs = CommitArgs(
    predecessor: BindingId,
    predecessorExpected: nat,
    successor: BindingId,
    successorExpected: nat,
    key: Key,
    checkpointVersion: nat,
    checkpoint: Payload,
    event: EventHash)

  function CommitBody(a: CommitArgs): Body {
    ReplacedBody(a.successor, a.predecessorExpected, a.successorExpected, a.checkpointVersion, a.checkpoint, a.event)
  }

  predicate SameCommit(e: JournalEvent, a: CommitArgs) {
    && e.binding == a.predecessor
    && e.kind == InstanceReplaced
    && e.to == Replaced
    && e.body == CommitBody(a)
  }

  function CommittedPredecessor(p: Binding): Binding {
    p.(status := Replaced, version := p.version + 1)
  }

  function CommittedSuccessor(s: Binding, a: CommitArgs): Binding {
    s.(status := Persisted,
       version := s.version + 1,
       checkpointVersion := a.checkpointVersion,
       checkpoint := Some(a.checkpoint),
       eventHash := Some(a.event))
  }

  function CommitEvents(p: Binding, s: Binding, a: CommitArgs): (JournalEvent, JournalEvent) {
    (JournalEvent(a.predecessor, InstanceReplaced, Some(p.status), Replaced, p.version + 1, a.key, CommitBody(a)),
     JournalEvent(a.successor, ReplacementPersisted, Some(s.status), Persisted, s.version + 1, a.key + ":successor",
                  SuccessorBody(a.predecessor, a.checkpointVersion)))
  }

  ghost function CommitReplacement(t: Tables, a: CommitArgs): Result<(Tables, Binding)> {
    var replay := Lookup(t.journal, a.key);
    if replay.Some? then
      if !SameCommit(replay.value, a) then Err(IdempotencyConflict)
      else if a.predecessor !in t.bindings || a.successor !in t.bindings then Err(BindingNotFound)
      else Ok((t, t.bindings[a.successor]))
    else if a.predecessor !in t.bindings || a.successor !in t.bindings then Err(BindingNotFound)
    else
      var p, s := t.bindings[a.predecessor], t.bindings[a.successor];
      if s.predecessor != Some(p.id) || !SameLineage(s, p) then Err(LineageMismatch)
      else if p.version != a.predecessorExpected || s.version != a.successorExpected then Err(VersionConflict)
      else if p.status != Checkpointed then Err(CheckpointRequired)
      else if s.status != Prepared then Err(SuccessorNotPrepared)
      else if Lookup(t.journal, a.key + ":successor").Some? then Err(IntegrityRejected)
      else
        var p', s', es := CommittedPredecessor(p), CommittedSuccessor(s, a), CommitEvents(p, s, a);
        Ok((t.(bindings := t.bindings[a.predecessor := p'][a.successor := s'],
               journal := t.journal + [es.0] + [es.1]), s'))
  }

  /** Writing a saga row makes it the latest replacement saga of its binding. */
  function PutSaga(t: Tables, key: Key, s: Saga): Tables {
    t.(sagas := t.sagas[key := s],
       recent := if s.kind.ReplacementSaga? then t.recent[s.binding := key] else t.recent)
  }

  function BeginSaga(t: Tables, key: Key, s: Saga): Result<(Tables, SagaState)> {
    if key in t.sagas then
      if t.sagas[key].(state := s.state) != s then Err(IdempotencyConflict) else Ok((t, t.sagas[key].state))
    else if s.binding !in t.bindings then Err(IntegrityRejected)
    else Ok((PutSaga(t, key, s.(state := LeaseReserved)), LeaseReserved))
  }

  /** UPDATE .. WHERE state = expected, followed by the read-back of the row. */
  function AdvanceSaga(t: Tables, key: Key, expected: SagaState, target: SagaState): Result<(Tables, SagaState)> {
    if key !in t.sagas then Err(SagaConflict)
    else if t.sagas[key].state == expected then Ok((PutSaga(t, key, t.sagas[key].(state := target)), target))
    else if t.sagas[key].state == target then Ok((t, target))
    else Err(SagaConflict)
  }

  /** `g` is MAX(generation) of the lineage, or 0 when the lineage has no row. */
  ghost predicate IsLatestGeneration(bindings: map<BindingId, Binding>, l: Lineage, g: nat) {
    && (forall id :: id in bindings && bindings[id].lineage == l ==> bindings[id].generation <= g)
    && (g > 0 ==> GenerationTaken(bindings, l, g))
  }

  ghost function LatestGeneration(bindings: map<BindingId, Binding>, l: Lineage): (g: nat)
    ensures IsLatestGeneration(bindings, l, g)
    decreases |bindings|
  {
    if bindings == map[] then 0
    else
      var id :| id in bindings;
      var rest := bindings - {id};
      assert rest.Keys == bindings.Keys - {id};
      assert |rest.Keys| < |bindings.Keys|;
      var g := LatestGeneration(rest, l);
      assert forall i :: i in bindings ==> i == id || i in rest;
      assert forall i :: i in rest ==> i in bindings && rest[i] == bindings[i];
      if bindings[id].lineage == l && bindings[id].generation > g then
        bindings[id].generation
      else
        assert g > 0 ==> GenerationTaken(rest, l, g);
        g
  }
}
