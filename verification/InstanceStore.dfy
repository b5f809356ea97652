/**
 The three stores as objects: the registry of app/ocs_instances/store.py, the
 Hazel register, and the lease manager.  Every method is one transaction and is
 tied to the function that describes it.
 */
module InstanceStore {
  import opened Prelude
  import opened InstanceContracts
  import opened InstanceTables
  import opened InstanceEffects
  import opened InstanceChain

  /** Neither row of a committed replacement changes a column under a constraint. */
  lemma CommitKeepsConstraints(bs: map<BindingId, Binding>, a: CommitArgs)
    requires UniqueKeys(bs) && UniqueGenerations(bs) && a.predecessor in bs && a.successor in bs && a.predecessor != a.successor
    requires forall id :: id in bs ==> bs[id].id == id
    ensures var bs' := bs[a.predecessor := CommittedPredecessor(bs[a.predecessor])][a.successor := CommittedSuccessor(bs[a.successor], a)];
            UniqueKeys(bs') && UniqueGenerations(bs') && forall id :: id in bs' ==> bs'[id].id == id
  {
    hide UniqueKeys, UniqueGenerations;
    var p', s' := CommittedPredecessor(bs[a.predecessor]), CommittedSuccessor(bs[a.successor], a);
    UpdateKeepsUnique(bs, a.predecessor, p');
    UpdateKeepsUnique(bs[a.predecessor := p'], a.successor, s');
  }


  class InstanceBindingStore {
    var bindings: map<BindingId, Binding>
    var journal: seq<JournalEvent>
    var sagas: map<Key, Saga>
    var recent: map<BindingId, Key>

    /** PRIMARY KEY and UNIQUE constraints of the bindings table. */
    ghost predicate Valid()
      reads this
    {
      && (forall id :: id in bindings ==> bindings[id].id == id)
      && UniqueKeys(bindings) && UniqueGenerations(bindings)
    }

    function Contents(): Tables
      reads this
    {
      Tables(bindings, journal, sagas, recent)
    }

    constructor ()
      ensures Valid() && Contents() == EMPTY
    {
      bindings, journal, sagas, recent := map[], [], map[], map[];
    }

    method Get(id: BindingId) returns (r: Result<Binding>)
      ensures r == if id in bindings then Ok(bindings[id]) else Err(BindingNotFound)
    {
      if id in bindings {
        return Ok(bindings[id]);
      }
      return Err(BindingNotFound);
    }

    method FindByIdempotency(key: Key) returns (r: Option<Binding>)
      requires Valid()
      ensures r == ByIdempotency(bindings, key)
    {
      if id :| id in bindings && bindings[id].key == key {
        r := Some(bindings[id]);
      } else {
        r := None;
      }
    }

    method FindByKey(key: Key) returns (r: Option<JournalEvent>)
      ensures r == Lookup(journal, key)
    {
      var i := |journal|;
      assert journal[..i] == journal;
      while i > 0
        invariant 0 <= i <= |journal|
        invariant Lookup(journal, key) == Lookup(journal[..i], key)
      {
        assert DropLast(journal[..i]) == journal[..i - 1];
        if journal[i - 1].key == key {
          return Some(journal[i - 1]);
        }
        i := i - 1;
      }
      return None;
    }

    method MaxGeneration(l: Lineage) returns (g: nat)
      ensures g == LatestGeneration(bindings, l)
    {
      g := 0;
      var rest := bindings.Keys;
      while rest != {}
        invariant rest <= bindings.Keys
        invariant forall id :: id in bindings && id !in rest && bindings[id].lineage == l ==> bindings[id].generation <= g
        invariant g > 0 ==> GenerationTaken(bindings, l, g)
      {
        var id :| id in rest;
        if bindings[id].lineage == l && bindings[id].generation > g {
          g := bindings[id].generation;
        }
        rest := rest - {id};
      }
      MaxUnique(bindings, l, g, LatestGeneration(bindings, l));
    }

    lemma MaxUnique(bs: map<BindingId, Binding>, l: Lineage, g: nat, h: nat)
      requires IsLatestGeneration(bs, l, g) && IsLatestGeneration(bs, l, h)
      ensures g == h
    {
    }

    method Create(b: Binding) returns (r: Result<Binding>)
      requires Valid()
      modifies this
      ensures Valid()
      ensures match InstanceTables.Create(old(Contents()), b)
              case Err(e) => r == Err(e) && Contents() == old(Contents())
              case Ok(x) => r == Ok(x.1) && Contents() == x.0
    {
      hide UniqueKeys, UniqueGenerations, SameLineage, PreparedEvent, InstanceTables.Lookup;
      if b.status != Prepared || b.version != 1 {
        return Err(InitialStateInvalid);
      }
      var existing := FindByIdempotency(b.key);
      if existing.Some? {
        if existing.value.request != b.request {
          return Err(IdempotencyConflict);
        }
        return Ok(existing.value);
      }
      if b.predecessor.None? {
        if id :| id in bindings && bindings[id].lineage == b.lineage && Nonterminal(bindings[id].status) {
          return Err(ActiveBindingExists);
        }
      } else {
        if b.predecessor.value !in bindings {
          return Err(PredecessorNotFound);
        }
        var p := bindings[b.predecessor.value];
        if p.status != Checkpointed || !SameLineage(b, p) {
          return Err(LineageMismatch);
        }
      }
      var prior := FindByKey(b.key + ":prepared");
      if b.id in bindings || prior.Some?
         || (exists id :: id in bindings && bindings[id].lineage == b.lineage && bindings[id].generation == b.generation)
         || (b.platform.Some? && exists id :: id in bindings && id != b.id && bindings[id].platform == b.platform) {
        return Err(IntegrityRejected);
      }
      NewRowKeepsUnique(bindings, b);
      bindings := bindings[b.id := b];
      journal := journal + [PreparedEvent(b)];
      return Ok(b);
    }

    method Transition(a: TransitionArgs) returns (r: Result<Binding>)
      requires Valid()
      modifies this
      ensures Valid()
      ensures match InstanceTables.Transition(old(Contents()), a)
              case Err(e) => r == Err(e) && Contents() == old(Contents())
              case Ok(x) => r == Ok(x.1) && Contents() == x.0
    {
      var replay := FindByKey(a.key);
      if replay.Some? {
        if !SameTransition(replay.value, a) {
          return Err(IdempotencyConflict);
        }
        r := Get(a.binding);
        return;
      }
      if a.binding !in bindings {
        return Err(BindingNotFound);
      }
      var current := bindings[a.binding];
      if current.version != a.expected {
        return Err(VersionConflict);
      }
      if a.target !in Allowed(current.status) {
        return Err(TransitionForbidden);
      }
      if a.change.platform.Some? && exists id :: id in bindings && id != a.binding && bindings[id].platform == a.change.platform {
        return Err(IntegrityRejected);
      }
      var updated := Updated(current, a.target, a.change);
      bindings := bindings[a.binding := updated];
      journal := journal + [JournalEvent(a.binding, a.kind, Some(current.status), a.target, updated.version, a.key,
                                         TransitionBody(a.note, a.change))];
      return Ok(updated);
    }

    method CommitReplacement(a: CommitArgs) returns (r: Result<Binding>)
      requires Valid()
      modifies this
      ensures Valid()
      ensures match InstanceTables.CommitReplacement(old(Contents()), a)
              case Err(e) => r == Err(e) && Contents() == old(Contents())
              case Ok(x) => r == Ok(x.1) && Contents() == x.0
    {
      hide SameLineage, SameCommit, CommitEvents, InstanceTables.Lookup, CommittedPredecessor, CommittedSuccessor, UniqueKeys, UniqueGenerations;
      var replay := FindByKey(a.key);
      if replay.Some? {
        if !SameCommit(replay.value, a) {
          return Err(IdempotencyConflict);
        }
        if a.predecessor !in bindings {
          return Err(BindingNotFound);
        }
        r := Get(a.successor);
        return;
      }
      if a.predecessor !in bindings || a.successor !in bindings {
        return Err(BindingNotFound);
      }
      var p, s := bindings[a.predecessor], bindings[a.successor];
      if s.predecessor != Some(p.id) || !SameLineage(s, p) {
        return Err(LineageMismatch);
      }
      if p.version != a.predecessorExpected || s.version != a.successorExpected {
        return Err(VersionConflict);
      }
      if p.status != Checkpointed {
        return Err(CheckpointRequired);
      }
      if s.status != Prepared {
        return Err(SuccessorNotPrepared);
      }
      var taken := FindByKey(a.key + ":successor");
      if taken.Some? {
        return Err(IntegrityRejected);
      }
      var replaced, persisted := CommittedPredecessor(p), CommittedSuccessor(s, a);
      CommitKeepsConstraints(bindings, a);
      bindings := bindings[a.predecessor := replaced][a.successor := persisted];
      var events := CommitEvents(p, s, a);
      journal := journal + [events.0];
      journal := journal + [events.1];
      return Ok(persisted);
    }

    method WriteSaga(key: Key, s: Saga)
      modifies this
      ensures Contents() == PutSaga(old(Contents()), key, s)
    {
      sagas := sagas[key := s];
      if s.kind.ReplacementSaga? {
        recent := recent[s.binding := key];
      }
    }

    method BeginSaga(key: Key, s: Saga) returns (r: Result<SagaState>)
      requires Valid()
      modifies this
      ensures Valid()
      ensures match InstanceTables.BeginSaga(old(Contents()), key, s)
              case Err(e) => r == Err(e) && Contents() == old(Contents())
              case Ok(x) => r == Ok(x.1) && Contents() == x.0
    {
      if key in sagas {
        if sagas[key].(state := s.state) != s {
          return Err(IdempotencyConflict);
        }
        return Ok(sagas[key].state);
      }
      if s.binding !in bindings {
        return Err(IntegrityRejected);
      }
      WriteSaga(key, s.(state := LeaseReserved));
      return Ok(LeaseReserved);
    }

    method AdvanceSaga(key: Key, expected: SagaState, target: SagaState) returns (r: Result<SagaState>)
      requires Valid()
      modifies this
      ensures Valid()
      ensures match InstanceTables.AdvanceSaga(old(Contents()), key, expected, target)
              case Err(e) => r == Err(e) && Contents() == old(Contents())
              case Ok(x) => r == Ok(x.1) && Contents() == x.0
    {
      if key in sagas && sagas[key].state == expected {
        WriteSaga(key, sagas[key].(state := target));
        return Ok(target);
      }
      if key !in sagas || sagas[key].state != target {
        return Err(SagaConflict);
      }
      return Ok(target);
    }
  }

  class HazelRegister {
    var runs: Logs

    constructor ()
      ensures runs == map[]
    {
      runs := map[];
    }

    method PersistState(e: HazelEvent) returns (r: Result<HazelEvent>)
      modifies this
      ensures match Persist(old(runs), e)
              case Err(x) => r == Err(x) && runs == old(runs)
              case Ok(h) => r == Ok(e) && runs == h
    {
      if Accepts(Run(runs, e.run), e) {
        runs := runs[e.run := Run(runs, e.run) + [e]];
        return Ok(e);
      }
      return Err(HazelRejected);
    }

    method RecoverState(l: Lineage) returns (r: Result<HazelEvent>)
      ensures r == if Run(runs, l) == [] then Err(HazelMissing) else Ok(Last(Run(runs, l)))
    {
      var log := Run(runs, l);
      if log == [] {
        return Err(HazelMissing);
      }
      return Ok(Last(log));
    }
  }

  class AuthorityLeaseManager {
    var leases: Leases

    constructor ()
      ensures leases == map[]
    {
      leases := map[];
    }

    method LeaseFor(id: string) returns (r: Result<Lease>)
      ensures r == if id in leases then Ok(leases[id]) else Err(LeaseUnknown)
    {
      if id in leases {
        return Ok(leases[id]);
      }
      return Err(LeaseUnknown);
    }

    method ReserveUse(id: string, key: Key, use: ActionId) returns (r: Result<Lease>)
      modifies this
      ensures match Reserve(old(leases), id, key, use)
              case Err(e) => r == Err(e) && leases == old(leases)
              case Ok(ls) => r.Ok? && leases == ls && id in ls && r.value == ls[id]
    {
      if id !in leases {
        return Err(LeaseRejected);
      }
      var lease := leases[id];
      if !lease.usable || lease.state == LeaseReleased {
        return Err(LeaseRejected);
      }
      if lease.action != (if use.BindUse? then BindAction else CheckpointAction) {
        return Err(LeaseRejected);
      }
      if key in lease.reservations {
        if lease.reservations[key] != use {
          return Err(LeaseRejected);
        }
        return Ok(lease);
      }
      if lease.used >= lease.maxUses {
        return Err(LeaseRejected);
      }
      leases := leases[id := lease.(used := lease.used + 1, state := LeaseConsumed, reservations := lease.reservations[key := use])];
      return Ok(leases[id]);
    }

    method FinalizeLease(id: string) returns (r: Result<LeaseState>)
      modifies this
      ensures match Finalize(old(leases), id)
              case Err(e) => r == Err(e) && leases == old(leases)
              case Ok(ls) => r.Ok? && leases == ls && id in ls && r.value == ls[id].state && Settled(ls[id])
    {
      if id !in leases {
        return Err(LeaseUnknown);
      }
      var lease := leases[id];
      if lease.state == LeaseReleased {
        return Ok(LeaseReleased);
      }
      if lease.state != LeaseConsumed {
        return Err(LeaseRejected);
      }
      if lease.singleUse {
        leases := leases[id := lease.(state := LeaseReleased)];
        return Ok(LeaseReleased);
      }
      return Ok(LeaseConsumed);
    }
  }
}
