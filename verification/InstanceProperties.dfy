/**
 What the registry promises in every state the system can reach: one chain and
 one holder per lineage, Hazel at most one version ahead, sagas that only climb,
 a journal that replays to the current rows, and writes that may be repeated.
 */
module InstanceProperties {
  import opened Prelude
  import opened InstanceContracts
  import opened InstanceTables
  import opened InstanceEffects
  import opened InstanceProtocol
  import opened InstanceChain
  import opened InstanceInvariant
  import opened InstanceCalls
  import opened InstanceRuns

  lemma ChainOf(w: World)
    requires Inv(w)
    ensures Rows(w.t.bindings) && UniqueKeys(w.t.bindings) && UniqueGenerations(w.t.bindings)
    ensures Linked(w.t.bindings) && Continued(w.t.bindings)
  {
    hide LeasesOk, HazelOk, JournalOk, SagasOk, RecentOk, Driven, Rows, UniqueKeys, UniqueGenerations, Linked, Continued;
  }

  // ---------------------------------------------------------------- single chain, single worker

  predicate Worker(b: Binding) {
    b.status in {Persisted, Bound, Active, Checkpointed}
  }

  /** `k` is the one row of its lineage with generation `g`. */
  ghost predicate OnlyGeneration(bs: map<BindingId, Binding>, l: Lineage, g: nat, k: BindingId) {
    && k in bs && bs[k].lineage == l && bs[k].generation == g
    && (forall i :: i in bs && bs[i].lineage == l && bs[i].generation == g ==> i == k)
  }

  /** Generations are 1..n without gaps or repeats. */
  lemma GenerationsAreConsecutive(w: World, id: BindingId, g: nat)
    requires Reachable(w) && id in w.t.bindings && 1 <= g <= w.t.bindings[id].generation
    ensures exists k :: OnlyGeneration(w.t.bindings, w.t.bindings[id].lineage, g, k)
  {
    hide Inv, Reachable, Rows, Linked;
    ReachableInv(w);
    ChainOf(w);
    var k := GenerationBelow(w.t.bindings, id, g);
    assert OnlyGeneration(w.t.bindings, w.t.bindings[id].lineage, g, k);
  }

  /** All bindings of a lineage carry the same profile, authority and namespaces. */
  lemma {:induction false} LineageAgrees(w: World, i: BindingId, j: BindingId)
    requires Inv(w) && i in w.t.bindings && j in w.t.bindings
    requires w.t.bindings[i].lineage == w.t.bindings[j].lineage && w.t.bindings[i].generation <= w.t.bindings[j].generation
    ensures w.t.bindings[i].profile == w.t.bindings[j].profile && w.t.bindings[i].authorityRef == w.t.bindings[j].authorityRef
    decreases w.t.bindings[j].generation
  {
    hide Inv, Rows, Linked, BackedOk;
    ChainOf(w);
    if w.t.bindings[i].generation < w.t.bindings[j].generation {
      RowFact(w, i);
      RowFact(w, j);
      LineageAgrees(w, i, w.t.bindings[j].predecessor.value);
    }
  }

  /** At most one worker, and exactly one binding that holds the lineage's checkpoint. */
  lemma OneWorker(w: World, i: BindingId, j: BindingId)
    requires Reachable(w) && i in w.t.bindings && j in w.t.bindings && w.t.bindings[i].lineage == w.t.bindings[j].lineage
    ensures Worker(w.t.bindings[i]) && Worker(w.t.bindings[j]) ==> i == j
    ensures w.t.bindings[i].profile == w.t.bindings[j].profile && w.t.bindings[i].authorityRef == w.t.bindings[j].authorityRef
  {
    hide Inv, Reachable, Rows, Linked, UniqueGenerations;
    ReachableInv(w);
    ChainOf(w);
    if Worker(w.t.bindings[i]) && Worker(w.t.bindings[j]) {
      HolderUnique(w.t.bindings, i, j);
    }
    if w.t.bindings[i].generation <= w.t.bindings[j].generation {
      LineageAgrees(w, i, j);
    } else {
      LineageAgrees(w, j, i);
    }
  }

  /** A successor waits for a checkpointed predecessor, and takes over from a replaced one. */
  lemma SuccessorAndPredecessor(w: World, id: BindingId)
    requires Reachable(w) && id in w.t.bindings && w.t.bindings[id].predecessor.Some?
    ensures w.t.bindings[id].predecessor.value in w.t.bindings
    ensures var p := w.t.bindings[w.t.bindings[id].predecessor.value];
            && SameLineage(w.t.bindings[id], p)
            && p.status == (if w.t.bindings[id].status == Prepared then Checkpointed else Replaced)
  {
    hide Inv, Reachable, BackedOk;
    ReachableInv(w);
    RowFact(w, id);
  }

  lemma HolderOf(w: World, l: Lineage) returns (h: BindingId)
    requires Inv(w) && LineageKnown(w.t.bindings, l)
    ensures h in w.t.bindings && w.t.bindings[h].lineage == l && Holder(w.t.bindings[h])
  {
    hide Inv, Rows, Linked, Continued, BackedOk, UniqueGenerations;
    ChainOf(w);
    KnownIsActive(w.t.bindings, l);
    var id :| id in w.t.bindings && w.t.bindings[id].lineage == l && Nonterminal(w.t.bindings[id].status);
    RowFact(w, id);
    h := if Holder(w.t.bindings[id]) then id else w.t.bindings[id].predecessor.value;
  }

  // ---------------------------------------------------------------- Hazel never runs ahead by two

  /** How far Hazel is ahead of a binding's committed checkpoint. */
  function Lead(w: World, b: Binding): int {
    |Run(w.hazel, b.lineage)| - b.checkpointVersion
  }

  /** Hazel leads the one holder by nothing or by one event, and still has the holder's own checkpoint. */
  lemma HazelLead(w: World, l: Lineage) returns (h: BindingId)
    requires Reachable(w) && LineageKnown(w.t.bindings, l)
    ensures h in w.t.bindings && w.t.bindings[h].lineage == l && Holder(w.t.bindings[h])
    ensures forall i :: i in w.t.bindings && w.t.bindings[i].lineage == l && Holder(w.t.bindings[i]) ==> i == h
    ensures 0 <= Lead(w, w.t.bindings[h]) <= 1
    ensures var b := w.t.bindings[h];
            b.status != Prepared ==>
              && b.checkpointVersion >= 1
              && b.eventHash == Some(Sha(Run(w.hazel, l)[b.checkpointVersion - 1]))
              && b.checkpoint == Some(Run(w.hazel, l)[b.checkpointVersion - 1].payload)
  {
    hide Inv, Reachable, Rows, Linked, LinkOk, UniqueGenerations;
    ReachableInv(w);
    h := HolderOf(w, l);
    RowFact(w, h);
    forall i | i in w.t.bindings && w.t.bindings[i].lineage == l && Holder(w.t.bindings[i]) ensures i == h {
      ChainOf(w);
      HolderUnique(w.t.bindings, i, h);
    }
  }

  // ---------------------------------------------------------------- sagas

  /** EFFECT_APPLIED and beyond, for a checkpoint: Hazel has the very payload the saga was begun for. */
  lemma CheckpointSagaMeans(w: World, key: Key)
    requires Reachable(w) && key in w.t.sagas && w.t.sagas[key].kind == CheckpointSaga
    ensures var s := w.t.sagas[key];
            && s.fingerprint.CheckpointFingerprint?
            && (Rank(s.state) >= 1 ==> Written(w.hazel, LineageOf(s.binding), s.fingerprint.payload))
            && (Rank(s.state) >= 3 ==> CheckpointJournaled(w.t.journal, key, s.binding))
            && s.leaseId in w.leases && w.leases[s.leaseId].state != LeaseActive
  {
    hide Inv, Reachable, Written, CheckpointJournaled;
    ReachableInv(w);
    SagaFact(w, key);
  }

  /** For a replacement, the effect is certain from READBACK_VERIFIED on, the commit from LOCAL_COMMITTED on. */
  lemma ReplacementSagaMeans(w: World, key: Key)
    requires Reachable(w) && key in w.t.sagas && w.t.sagas[key].kind == ReplacementSaga
    ensures var s := w.t.sagas[key];
            && s.binding in w.t.bindings
            && (Rank(s.state) >= 1 ==> HasSuccessor(w.t.bindings, s.binding, s.leaseId))
            && (Rank(s.state) >= 2 ==> ReplacementWritten(w.hazel, LineageOf(s.binding), s.binding))
            && (Rank(s.state) >= 3 ==> ReplacementJournaled(w.t.journal, s.binding))
            && s.leaseId in w.leases && w.leases[s.leaseId].state != LeaseActive
  {
    hide Inv, Reachable, HasSuccessor, ReplacementWritten, HistoryOk, History;
    ReachableInv(w);
    SagaFact(w, key);
    if Rank(w.t.sagas[key].state) >= 3 {
      ReplacedIsJournaled(w, w.t.sagas[key].binding);
    }
  }

  /** The journal holds the commit that replaced this binding. */
  ghost predicate ReplacementJournaled(journal: seq<JournalEvent>, p: BindingId) {
    exists e :: e in journal && e.binding == p && e.to == Replaced
  }

  lemma HistoryIn(journal: seq<JournalEvent>, id: BindingId)
    ensures forall e :: e in History(journal, id) ==> e in journal && e.binding == id
  {
  }

  lemma ReplacedIsJournaled(w: World, id: BindingId)
    requires Inv(w) && id in w.t.bindings && w.t.bindings[id].status == Replaced
    ensures ReplacementJournaled(w.t.journal, id)
  {
    hide Inv, History, EntryOk, LinkOk, BackedOk;
    HistoryFact(w, id);
    RowFact(w, id);
    HistoryIn(w.t.journal, id);
    assert Last(History(w.t.journal, id)) in History(w.t.journal, id);
  }

  lemma HistoryFact(w: World, id: BindingId)
    requires Inv(w) && id in w.t.bindings
    ensures HistoryOk(w.t.bindings[id], History(w.t.journal, id))
  {
    hide LeasesOk, Chain, HazelOk, SagasOk, RecentOk, Driven, HistoryOk, History, JournalOk;
    JournalHistories(w.t.bindings, w.t.journal, id);
  }

  /** A saga never moves back, whatever happens. */
  lemma SagasOnlyClimb(s: System, hs: seq<Happening>, key: Key)
    requires SystemInv(s) && key in s.w.t.sagas
    ensures key in Exec(s, hs).w.t.sagas && SagaLater(s.w.t.sagas[key], Exec(s, hs).w.t.sagas[key])
  {
    hide SystemInv, Exec, SagaLater, RowsLater, LogsLater, JournalLater, LeasesLater;
    ExecOk(s, hs);
  }

  // ---------------------------------------------------------------- the journal is a history

  /** Replays journal rows from nothing; None where a row does not continue the one before it. */
  function Fold(hist: seq<JournalEvent>): Option<(Status, nat)> {
    if hist == [] then None
    else
      var e := Last(hist);
      if |hist| == 1 then
        if e.from.None? && e.version == 1 then Some((e.to, 1)) else None
      else
        match Fold(DropLast(hist))
        case None => None
        case Some((st, v)) =>
          if e.from == Some(st) && e.version == v + 1 && e.to in Allowed(st) then Some((e.to, e.version)) else None
  }

  lemma {:induction false} FoldHistory(hist: seq<JournalEvent>, succeeds: bool)
    requires hist != [] && forall i :: 0 <= i < |hist| ==> EntryOk(hist, i, succeeds)
    ensures Fold(hist) == Some((Last(hist).to, |hist|))
  {
    hide EntryOk;
    EntryContinues(hist, |hist| - 1, succeeds);
    if |hist| > 1 {
      var before := DropLast(hist);
      forall i | 0 <= i < |before| ensures EntryOk(before, i, succeeds) {
        EntryPrefix(hist, i, succeeds);
      }
      FoldHistory(before, succeeds);
    }
  }

  lemma EntryContinues(hist: seq<JournalEvent>, i: nat, succeeds: bool)
    requires i < |hist| && EntryOk(hist, i, succeeds)
    ensures hist[i].version == i + 1
    ensures i == 0 ==> hist[i].from == None
    ensures i > 0 ==> hist[i].from == Some(hist[i - 1].to) && hist[i].to in Allowed(hist[i - 1].to)
  {
  }

  lemma EntryPrefix(hist: seq<JournalEvent>, i: nat, succeeds: bool)
    requires i < |hist| - 1 && EntryOk(hist, i, succeeds)
    ensures EntryOk(DropLast(hist), i, succeeds)
  {
  }

  /** Replaying a binding's journal yields its current status and version. */
  lemma JournalReplays(w: World, id: BindingId)
    requires Reachable(w) && id in w.t.bindings
    ensures Fold(History(w.t.journal, id)) == Some((w.t.bindings[id].status, w.t.bindings[id].version))
  {
    hide Inv, Reachable, Fold, EntryOk, History, LinkOk, BackedOk;
    ReachableInv(w);
    HistoryFact(w, id);
    RowFact(w, id);
    FoldHistory(History(w.t.journal, id), w.t.bindings[id].predecessor.Some?);
  }

  // ---------------------------------------------------------------- repeated writes

  lemma SystemRows(s: System)
    requires SystemInv(s)
    ensures Rows(s.w.t.bindings) && UniqueKeys(s.w.t.bindings)
  {
    hide Inv, CallsOk, Rows, UniqueKeys;
    ChainOf(s.w);
  }

  lemma CreatedRow(t: Tables, b: Binding)
    requires Create(t, b).Ok? && Rows(t.bindings)
    ensures var r := Create(t, b).value;
            r.1.id in r.0.bindings && r.0.bindings[r.1.id].key == b.key && r.0.bindings[r.1.id].request == b.request
  {
    hide PlatformTaken, ActiveExists, GenerationTaken, SameLineage;
    ExistingRow(t.bindings, b.key);
  }

  lemma RowOfKey(bs: map<BindingId, Binding>, id: BindingId)
    requires UniqueKeys(bs) && Rows(bs) && id in bs
    ensures ByIdempotency(bs, bs[id].key) == Some(bs[id])
  {
    var found := ByIdempotency(bs, bs[id].key);
    assert HasKey(bs, bs[id].key);
    var i :| i in bs && bs[i] == found.value;
    assert i == id;
  }

  /** Repeating a create, however much later, returns the same binding and writes nothing. */
  lemma CreateReplays(t: Tables, b: Binding, s: System, hs: seq<Happening>)
    requires Create(t, b).Ok? && Rows(t.bindings) && s.w.t == Create(t, b).value.0 && SystemInv(s)
    ensures var t' := Exec(s, hs).w.t;
            && Create(t, b).value.1.id in t'.bindings
            && Create(t', b) == Ok((t', t'.bindings[Create(t, b).value.1.id]))
  {
    hide SystemInv, Exec, LogsLater, SagasLater, JournalLater, LeasesLater, PlatformTaken, ActiveExists, GenerationTaken,
         Rows, UniqueKeys, HasKey;
    CreatedRow(t, b);
    var id := Create(t, b).value.1.id;
    ExecOk(s, hs);
    SystemRows(Exec(s, hs));
    assert RowLater(s.w.t.bindings[id], Exec(s, hs).w.t.bindings[id]);
    RowOfKey(Exec(s, hs).w.t.bindings, id);
    assert b.status == Prepared && b.version == 1;
  }

  lemma LookupLater(s: System, hs: seq<Happening>, key: Key)
    requires SystemInv(s) && InstanceTables.Lookup(s.w.t.journal, key).Some?
    ensures InstanceTables.Lookup(Exec(s, hs).w.t.journal, key) == InstanceTables.Lookup(s.w.t.journal, key)
  {
    hide SystemInv, Exec, LogsLater, SagasLater, RowsLater, LeasesLater;
    ExecOk(s, hs);
  }

  lemma RowStays(s: System, hs: seq<Happening>, id: BindingId)
    requires SystemInv(s) && id in s.w.t.bindings
    ensures id in Exec(s, hs).w.t.bindings
  {
    hide SystemInv, Exec, LogsLater, SagasLater, JournalLater, LeasesLater, RowLater;
    ExecOk(s, hs);
  }

  lemma TransitionJournaled(t: Tables, a: TransitionArgs)
    requires Transition(t, a).Ok?
    ensures var t' := Transition(t, a).value.0;
            && a.binding in t'.bindings
            && InstanceTables.Lookup(t'.journal, a.key).Some?
            && SameTransition(InstanceTables.Lookup(t'.journal, a.key).value, a)
  {
    hide PlatformTaken, Allowed;
    if InstanceTables.Lookup(t.journal, a.key).None? {
      LookupAppend(t.journal, TransitionEvent(t.bindings[a.binding], a), a.key);
    }
  }

  /** Repeating a transition returns the row as it is by then and writes nothing. */
  lemma TransitionReplays(t: Tables, a: TransitionArgs, s: System, hs: seq<Happening>)
    requires Transition(t, a).Ok? && s.w.t == Transition(t, a).value.0 && SystemInv(s)
    ensures var t' := Exec(s, hs).w.t;
            a.binding in t'.bindings && Transition(t', a) == Ok((t', t'.bindings[a.binding]))
  {
    hide SystemInv, Exec, PlatformTaken, Allowed, SameTransition, Updated;
    TransitionJournaled(t, a);
    LookupLater(s, hs, a.key);
    RowStays(s, hs, a.binding);
  }

  lemma CommitJournaled(t: Tables, a: CommitArgs)
    requires CommitReplacement(t, a).Ok?
    ensures var t' := CommitReplacement(t, a).value.0;
            && a.predecessor in t'.bindings && a.successor in t'.bindings
            && InstanceTables.Lookup(t'.journal, a.key).Some?
            && SameCommit(InstanceTables.Lookup(t'.journal, a.key).value, a)
  {
    hide SameLineage;
    if InstanceTables.Lookup(t.journal, a.key).None? {
      var es := CommitEvents(t.bindings[a.predecessor], t.bindings[a.successor], a);
      assert es.1.key != a.key by { assert |es.1.key| != |a.key|; }
      LookupAppend(t.journal, es.0, a.key);
      LookupAppend(t.journal + [es.0], es.1, a.key);
    }
  }

  lemma CommitReplays(t: Tables, a: CommitArgs, s: System, hs: seq<Happening>)
    requires CommitReplacement(t, a).Ok? && s.w.t == CommitReplacement(t, a).value.0 && SystemInv(s)
    ensures var t' := Exec(s, hs).w.t;
            a.successor in t'.bindings && CommitReplacement(t', a) == Ok((t', t'.bindings[a.successor]))
  {
    hide SystemInv, Exec, SameCommit, SameLineage, CommittedPredecessor, CommittedSuccessor, CommitEvents;
    CommitJournaled(t, a);
    LookupLater(s, hs, a.key);
    RowStays(s, hs, a.predecessor);
    RowStays(s, hs, a.successor);
  }

  /** Repeating begin_action_saga returns the state the saga has reached and writes nothing. */
  lemma BeginReplays(t: Tables, key: Key, row: Saga, s: System, hs: seq<Happening>)
    requires BeginSaga(t, key, row).Ok? && s.w.t == BeginSaga(t, key, row).value.0 && SystemInv(s)
    ensures var t' := Exec(s, hs).w.t;
            key in t'.sagas && BeginSaga(t', key, row) == Ok((t', t'.sagas[key].state))
  {
    hide SystemInv, Exec;
    SagasOnlyClimb(s, hs, key);
  }
}
