/**
 The invariant of the whole system, the relation `Later` between an earlier and
 a later world, and the effect of every kind of write on both.
 */
module InstanceInvariant {
  import opened Prelude
  import opened InstanceContracts
  import opened InstanceTables
  import opened InstanceEffects
  import opened InstanceProtocol
  import opened InstanceChain

  // ---------------------------------------------------------------- sagas

  ghost predicate Written(h: Logs, l: Lineage, payload: Payload) {
    exists e :: InLog(h, e) && e.run == l && e.payload == payload
  }

  ghost predicate ReplacementWritten(h: Logs, l: Lineage, p: BindingId) {
    exists e :: InLog(h, e) && e.run == l && e.payload.ReplacementPayload? && e.payload.recoveredFrom == p
  }

  ghost predicate HasSuccessor(bs: map<BindingId, Binding>, p: BindingId, leaseId: string) {
    exists id :: id in bs && bs[id].predecessor == Some(p) && bs[id].leaseId == leaseId
  }

  /** The journal holds the checkpoint that the saga under this key committed. */
  predicate CheckpointJournaled(journal: seq<JournalEvent>, key: Key, b: BindingId) {
    var e := InstanceTables.Lookup(journal, key);
    e.Some? && e.value.binding == b && e.value.kind == InstanceCheckpointed
  }

  /** Columns of a saga row that follow from how it was begun. */
  predicate SagaShape(s: Saga) {
    match s.kind
    case CheckpointSaga =>
      && s.fingerprint.CheckpointFingerprint?
      && s.fingerprint.payload.CheckpointPayload?
      && s.fingerprint.payload.binding == s.binding
      && s.fingerprint.authority.leaseId == s.leaseId
    case ReplacementSaga =>
      && s.fingerprint.ReplacementFingerprint?
      && s.fingerprint.predecessor == s.binding
      && s.fingerprint.request.leaseId == s.leaseId
  }

  /** The lineage that a binding id speaks for. */
  function LineageOf(id: BindingId): Lineage {
    id.request.lineage
  }

  ghost predicate SagaEffect(h: Logs, s: Saga)
    requires SagaShape(s)
  {
    && (s.kind.CheckpointSaga? && Rank(s.state) >= 1 ==> Written(h, LineageOf(s.binding), s.fingerprint.payload))
    && (s.kind.ReplacementSaga? && Rank(s.state) >= 2 ==> ReplacementWritten(h, LineageOf(s.binding), s.binding))
  }

  ghost predicate SagaRows(bs: map<BindingId, Binding>, s: Saga) {
    && s.binding in bs
    && (s.kind.ReplacementSaga? && Rank(s.state) >= 1 ==> HasSuccessor(bs, s.binding, s.leaseId))
    && (s.kind.ReplacementSaga? && Rank(s.state) >= 3 ==> bs[s.binding].status == Replaced)
  }

  ghost predicate SagaJournal(journal: seq<JournalEvent>, key: Key, s: Saga) {
    s.kind.CheckpointSaga? && Rank(s.state) >= 3 ==> CheckpointJournaled(journal, key, s.binding)
  }

  predicate SagaLease(ls: Leases, s: Saga) {
    s.leaseId in ls && ls[s.leaseId].state != LeaseActive
  }

  /** How far a saga has come says what has happened. */
  ghost predicate SagaOk(w: World, key: Key, s: Saga) {
    && SagaShape(s)
    && SagaEffect(w.hazel, s)
    && SagaRows(w.t.bindings, s)
    && SagaJournal(w.t.journal, key, s)
    && SagaLease(w.leases, s)
  }

  ghost predicate SagasOk(w: World) {
    forall k :: k in w.t.sagas ==> SagaOk(w, k, w.t.sagas[k])
  }

  ghost predicate RecentOk(t: Tables) {
    && (forall id :: id in t.recent ==>
          t.recent[id] in t.sagas && t.sagas[t.recent[id]].kind.ReplacementSaga? && t.sagas[t.recent[id]].binding == id)
    && (forall k :: k in t.sagas && t.sagas[k].kind.ReplacementSaga? ==> t.sagas[k].binding in t.recent)
  }

  /** A checkpoint in the journal was driven by the saga under its key. */
  predicate DrivenBySaga(sagas: map<Key, Saga>, e: JournalEvent) {
    e.kind == InstanceCheckpointed ==>
      && e.body.TransitionBody? && e.body.note.CheckpointNote?
      && e.key in sagas && sagas[e.key].kind == CheckpointSaga
      && sagas[e.key].binding == e.binding && sagas[e.key].fingerprint == e.body.note.fingerprint
  }

  ghost predicate Driven(t: Tables) {
    forall i :: 0 <= i < |t.journal| ==> DrivenBySaga(t.sagas, t.journal[i])
  }

  /** Every use of a lease is reserved under its own key, and marks the lease as used. */
  predicate LeaseOk(l: Lease) {
    |l.reservations| == l.used <= l.maxUses && (l.used > 0 ==> l.state != LeaseActive)
  }

  ghost predicate LeasesOk(ls: Leases) {
    forall id :: id in ls ==> LeaseOk(ls[id])
  }

  ghost predicate Inv(w: World) {
    && LeasesOk(w.leases)
    && Chain(w.t.bindings)
    && HazelOk(w.t.bindings, w.hazel)
    && JournalOk(w.t.bindings, w.t.journal)
    && SagasOk(w)
    && RecentOk(w.t)
    && Driven(w.t)
  }

  // ---------------------------------------------------------------- Later

  predicate RowLater(b: Binding, b': Binding) {
    && SameIdentity(b, b')
    && b.version <= b'.version
    && (b.version == b'.version ==> b == b')
    && Height(b.status) <= Height(b'.status)
    && (b.status != Prepared ==> b.checkpointVersion <= b'.checkpointVersion)
    && (b.version < b'.version ==> Moved(b, b'))
  }

  /** A row that moved on either climbed or committed a checkpoint; a worker's row did the latter, or was replaced. */
  predicate Moved(b: Binding, b': Binding) {
    && (Height(b.status) < Height(b'.status) || (b.status == Checkpointed && b.checkpointVersion < b'.checkpointVersion))
    && (b.status in {Active, Checkpointed} ==> Height(b'.status) >= 5 || b.checkpointVersion < b'.checkpointVersion)
  }

  ghost predicate RowsLater(bs: map<BindingId, Binding>, bs': map<BindingId, Binding>) {
    forall id :: id in bs ==> id in bs' && RowLater(bs[id], bs'[id])
  }

  ghost predicate LogsLater(h: Logs, h': Logs) {
    forall l :: l in h ==> l in h' && h[l] <= h'[l]
  }

  predicate SagaLater(s: Saga, s': Saga) {
    s'.(state := s.state) == s && Rank(s.state) <= Rank(s'.state)
  }

  ghost predicate SagasLater(ss: map<Key, Saga>, ss': map<Key, Saga>) {
    forall k :: k in ss ==> k in ss' && SagaLater(ss[k], ss'[k])
  }

  ghost predicate JournalLater(j: seq<JournalEvent>, j': seq<JournalEvent>) {
    j <= j' && forall k :: InstanceTables.Lookup(j, k).Some? ==> InstanceTables.Lookup(j', k) == InstanceTables.Lookup(j, k)
  }

  function LeaseHeight(s: LeaseState): nat {
    match s
    case LeaseActive => 0
    case LeaseConsumed => 1
    case LeaseReleased => 2
  }

  predicate LeaseLater(l: Lease, l': Lease) {
    && l'.action == l.action && l'.authorityRef == l.authorityRef
    && l'.singleUse == l.singleUse && l'.maxUses == l.maxUses
    && LeaseHeight(l.state) <= LeaseHeight(l'.state)
  }

  ghost predicate LeasesLater(ls: Leases, ls': Leases) {
    forall id :: id in ls ==> id in ls' && LeaseLater(ls[id], ls'[id])
  }

  ghost predicate Later(w: World, w': World) {
    && w'.profiles == w.profiles
    && RowsLater(w.t.bindings, w'.t.bindings)
    && LogsLater(w.hazel, w'.hazel)
    && SagasLater(w.t.sagas, w'.t.sagas)
    && JournalLater(w.t.journal, w'.t.journal)
    && LeasesLater(w.leases, w'.leases)
  }

  lemma LaterRefl(w: World)
    ensures Later(w, w)
  {
  }

  lemma JournalLaterTrans(a: seq<JournalEvent>, b: seq<JournalEvent>, c: seq<JournalEvent>)
    requires JournalLater(a, b) && JournalLater(b, c)
    ensures JournalLater(a, c)
  {
  }

  lemma LogsLaterTrans(a: Logs, b: Logs, c: Logs)
    requires LogsLater(a, b) && LogsLater(b, c)
    ensures LogsLater(a, c)
  {
  }

  lemma LaterTrans(a: World, b: World, c: World)
    requires Later(a, b) && Later(b, c)
    ensures Later(a, c)
  {
    JournalLaterTrans(a.t.journal, b.t.journal, c.t.journal);
    LogsLaterTrans(a.hazel, b.hazel, c.hazel);
  }

  /** An accepted event stays at its version. */
  lemma InLogLater(h: Logs, h': Logs, e: HazelEvent)
    requires LogsLater(h, h') && InLog(h, e)
    ensures InLog(h', e)
  {
  }

  lemma SagaEffectLater(h: Logs, h': Logs, s: Saga)
    requires LogsLater(h, h') && SagaShape(s) && SagaEffect(h, s)
    ensures SagaEffect(h', s)
  {
    forall e | InLog(h, e) ensures InLog(h', e) {
      InLogLater(h, h', e);
    }
  }

  lemma SagaRowsLater(bs: map<BindingId, Binding>, bs': map<BindingId, Binding>, s: Saga)
    requires RowsLater(bs, bs') && Rows(bs') && SagaRows(bs, s)
    ensures SagaRows(bs', s)
  {
    assert RowLater(bs[s.binding], bs'[s.binding]) && RowOk(s.binding, bs'[s.binding]);
    if HasSuccessor(bs, s.binding, s.leaseId) {
      var id :| id in bs && bs[id].predecessor == Some(s.binding) && bs[id].leaseId == s.leaseId;
      assert RowLater(bs[id], bs'[id]);
    }
  }

  /** A saga row that did not move keeps its meaning. */
  lemma SagaOkLater(w: World, w': World, key: Key, s: Saga)
    requires Later(w, w') && SagaOk(w, key, s) && Rows(w'.t.bindings)
    ensures SagaOk(w', key, s)
  {
    SagaEffectLater(w.hazel, w'.hazel, s);
    SagaRowsLater(w.t.bindings, w'.t.bindings, s);
    assert LeaseLater(w.leases[s.leaseId], w'.leases[s.leaseId]);
  }

  lemma SagasOkLater(w: World, w': World)
    requires Later(w, w') && SagasOk(w) && Rows(w'.t.bindings) && w'.t.sagas == w.t.sagas
    ensures SagasOk(w')
  {
    forall k | k in w'.t.sagas ensures SagaOk(w', k, w'.t.sagas[k]) {
      SagaOkLater(w, w', k, w.t.sagas[k]);
    }
  }

  // ---------------------------------------------------------------- writes to leases

  lemma ReserveLater(ls: Leases, id: string, key: Key, use: ActionId)
    requires LeasesOk(ls) && Reserve(ls, id, key, use).Ok?
    ensures var ls' := Reserve(ls, id, key, use).value;
            LeasesOk(ls') && LeasesLater(ls, ls') && id in ls' && ls'[id].state != LeaseActive
  {
    assert LeaseOk(ls[id]);
    assert key in ls[id].reservations ==> ls[id].reservations != map[];
  }

  lemma FinalizeLater(ls: Leases, id: string)
    requires LeasesOk(ls) && Finalize(ls, id).Ok?
    ensures var ls' := Finalize(ls, id).value;
            LeasesOk(ls') && LeasesLater(ls, ls') && id in ls' && Settled(ls'[id])
  {
  }

  lemma InvLeases(w: World)
    requires Inv(w)
    ensures LeasesOk(w.leases)
  {
    hide Chain, HazelOk, JournalOk, SagasOk, RecentOk, Driven, LeasesOk;
  }

  lemma InvRows(w: World)
    requires Inv(w)
    ensures Rows(w.t.bindings)
  {
    hide HazelOk, JournalOk, SagasOk, RecentOk, Driven, Rows;
  }

  lemma LeasesOnlyLater(w: World, ls: Leases)
    requires LeasesLater(w.leases, ls)
    ensures Later(w, w.(leases := ls))
  {
  }

  /** Nothing but the leases moved. */
  lemma LeaseWriteKeeps(w: World, ls: Leases)
    requires Inv(w) && LeasesLater(w.leases, ls) && LeasesOk(ls)
    ensures Inv(w.(leases := ls)) && Later(w, w.(leases := ls))
  {
    hide Chain, HazelOk, JournalOk, SagasOk, RecentOk, Driven, Rows, Later, LeasesOk, LeasesLater;
    InvRows(w);
    LeasesOnlyLater(w, ls);
    SagasOkLater(w, w.(leases := ls));
  }

  // ---------------------------------------------------------------- writes to Hazel

  lemma PersistLater(w: World, e: HazelEvent)
    requires Persist(w.hazel, e).Ok?
    ensures Later(w, w.(hazel := Persist(w.hazel, e).value))
    ensures InLog(Persist(w.hazel, e).value, e)
  {
  }

  lemma HazelWriteKeeps(w: World, e: HazelEvent, base: BindingId)
    requires Inv(w) && Persist(w.hazel, e).Ok? && MayPersist(w.t.bindings, e, base)
    ensures Inv(w.(hazel := Persist(w.hazel, e).value)) && Later(w, w.(hazel := Persist(w.hazel, e).value))
    ensures InLog(Persist(w.hazel, e).value, e)
  {
    InvRows(w);
    PersistLater(w, e);
    hide Chain, HazelOk, JournalOk, SagasOk, RecentOk, Driven, Rows, Later, MayPersist, InLog;
    PersistKeepsHazel(w.t.bindings, w.hazel, e, base);
    SagasOkLater(w, w.(hazel := Persist(w.hazel, e).value));
  }

  // ---------------------------------------------------------------- writes to sagas

  lemma SagaWriteKeepsRecent(t: Tables, key: Key, s: Saga)
    requires RecentOk(t) && (key in t.sagas ==> t.sagas[key].kind == s.kind && t.sagas[key].binding == s.binding)
    ensures RecentOk(PutSaga(t, key, s))
  {
  }

  lemma SagaWriteKeepsDriven(t: Tables, key: Key, s: Saga)
    requires Driven(t) && (key in t.sagas ==> t.sagas[key].(state := s.state) == s)
    ensures Driven(PutSaga(t, key, s))
  {
    forall i | 0 <= i < |t.journal| ensures DrivenBySaga(PutSaga(t, key, s).sagas, t.journal[i]) {
      assert DrivenBySaga(t.sagas, t.journal[i]);
    }
  }

  /** A saga row is written: begun, or moved forward with its new meaning established. */
  lemma SagaWriteKeeps(w: World, key: Key, s: Saga)
    requires Inv(w)
    requires key in w.t.sagas ==> SagaLater(w.t.sagas[key], s)
    requires SagaOk(w, key, s)
    ensures Inv(w.(t := PutSaga(w.t, key, s))) && Later(w, w.(t := PutSaga(w.t, key, s)))
  {
    hide Chain, HazelOk, JournalOk, RecentOk, Driven, Later, SagaOk;
    SagaWriteKeepsRecent(w.t, key, s);
    SagaWriteKeepsDriven(w.t, key, s);
    PutSagaLater(w, key, s);
    PutSagaKeepsSagas(w, key, s);
  }

  lemma PutSagaKeepsSagas(w: World, key: Key, s: Saga)
    requires SagasOk(w) && SagaOk(w, key, s)
    ensures SagasOk(w.(t := PutSaga(w.t, key, s)))
  {
    hide SagaEffect, SagaRows, SagaJournal, SagaLease;
  }

  lemma PutSagaLater(w: World, key: Key, s: Saga)
    requires key in w.t.sagas ==> SagaLater(w.t.sagas[key], s)
    ensures Later(w, w.(t := PutSaga(w.t, key, s)))
  {
  }

  // ---------------------------------------------------------------- writes to bindings and journal

  /** Appending under a fresh key, for a known binding. */
  lemma AppendLater(j: seq<JournalEvent>, e: JournalEvent)
    requires InstanceTables.Lookup(j, e.key).None?
    ensures JournalLater(j, j + [e])
  {
    forall k | InstanceTables.Lookup(j, k).Some? ensures InstanceTables.Lookup(j + [e], k) == InstanceTables.Lookup(j, k) {
      LookupAppend(j, e, k);
    }
  }

  /** One row moves (or appears) together with its journal row. */
  lemma AppendKeepsJournal(bs: map<BindingId, Binding>, j: seq<JournalEvent>, b': Binding, e: JournalEvent)
    requires JournalOk(bs, j) && e.binding == b'.id
    requires HistoryOk(b', History(j, b'.id) + [e])
    requires e.kind == InstanceReplaced || (b'.id in bs && bs[b'.id].status == Replaced) ==> b'.status == Replaced
    ensures JournalOk(bs[b'.id := b'], j + [e])
  {
    hide HistoryOk, History;
    var bs', j' := bs[b'.id := b'], j + [e];
    forall id | id in bs' ensures HistoryOk(bs'[id], History(j', id)) {
      HistoryAppend(j, e, id);
    }
  }

  lemma NoHistory(bs: map<BindingId, Binding>, j: seq<JournalEvent>, id: BindingId)
    requires (forall i :: 0 <= i < |j| ==> j[i].binding in bs) && id !in bs
    ensures History(j, id) == []
  {
    if j != [] {
      NoHistory(bs, DropLast(j), id);
    }
  }

  /** The history of a row grows by the event of its transition. */
  lemma HistoryGrows(b: Binding, hist: seq<JournalEvent>, b': Binding, e: JournalEvent)
    requires HistoryOk(b, hist) && b.version >= 1
    requires b'.version == b.version + 1 && b'.predecessor == b.predecessor
    requires e.version == b'.version && e.from == Some(b.status) && e.to == b'.status && b'.status in Allowed(b.status)
    requires e.kind != InstancePrepared
    requires e.kind == ReplacementPersisted <==> b.version == 1 && b.predecessor.Some?
    ensures HistoryOk(b', hist + [e])
  {
    var h' := hist + [e];
    forall i | 0 <= i < |h'| ensures EntryOk(h', i, b'.predecessor.Some?) {
      EntryKept(hist, e, i, b.predecessor.Some?);
    }
  }

  lemma EntryKept(hist: seq<JournalEvent>, e: JournalEvent, i: nat, succeeds: bool)
    requires i <= |hist| && (i < |hist| ==> EntryOk(hist, i, succeeds))
    ensures i < |hist| ==> EntryOk(hist + [e], i, succeeds)
    ensures |hist| > 0 ==> StatusBefore(hist + [e], |hist|) == Some(Last(hist).to)
  {
  }

  lemma AppendKeepsDriven(t: Tables, bs': map<BindingId, Binding>, e: JournalEvent)
    requires Driven(t) && DrivenBySaga(t.sagas, e)
    ensures Driven(t.(bindings := bs', journal := t.journal + [e]))
  {
  }

  /** What a transition has to bring along so that the registry stays backed. */
  ghost predicate MayTransition(w: World, a: TransitionArgs) {
    a.binding in w.t.bindings && InstanceTables.Lookup(w.t.journal, a.key).None? && a.target in Allowed(w.t.bindings[a.binding].status) ==>
      var b := w.t.bindings[a.binding];
      var b' := Updated(b, a.target, a.change);
      b.version == a.expected ==>
        && ClimbsInPlace(b, b')
        && Height(b.status) <= Height(b'.status) && b.checkpointVersion <= b'.checkpointVersion && Moved(b, b')
        && BackedOk(b', Run(w.hazel, b'.lineage))
        && Unreplaced(w.hazel, b.id, b'.checkpointVersion)
        && a.kind != InstancePrepared && a.kind != ReplacementPersisted && a.kind != InstanceReplaced
        && (b.version == 1 ==> b.predecessor.None?)
        && (a.kind == InstanceCheckpointed ==>
              && a.note.CheckpointNote? && a.key in w.t.sagas && w.t.sagas[a.key].kind == CheckpointSaga
              && w.t.sagas[a.key].binding == a.binding && w.t.sagas[a.key].fingerprint == a.note.fingerprint)
  }

  lemma TransitionRows(bs: map<BindingId, Binding>, id: BindingId, b': Binding)
    requires id in bs && ClimbsInPlace(bs[id], b')
    requires Height(bs[id].status) <= Height(b'.status) && bs[id].checkpointVersion <= b'.checkpointVersion && Moved(bs[id], b')
    ensures RowsLater(bs, bs[id := b'])
  {
  }

  /** The row and the journal row that a fresh transition writes. */
  function TransitionEvent(b: Binding, a: TransitionArgs): JournalEvent {
    JournalEvent(a.binding, a.kind, Some(b.status), a.target, b.version + 1, a.key, TransitionBody(a.note, a.change))
  }

  lemma TransitionLater(w: World, a: TransitionArgs)
    requires Inv(w) && MayTransition(w, a) && Transition(w.t, a).Ok?
    ensures Later(w, w.(t := Transition(w.t, a).value.0))
    ensures var e := InstanceTables.Lookup(Transition(w.t, a).value.0.journal, a.key);
            e.Some? && SameTransition(e.value, a)
  {
    hide Chain, HazelOk, JournalOk, SagasOk, RecentOk, Driven, BackedOk, Unreplaced;
    if InstanceTables.Lookup(w.t.journal, a.key).None? {
      var b := w.t.bindings[a.binding];
      var e := TransitionEvent(b, a);
      AppendLater(w.t.journal, e);
      LookupAppend(w.t.journal, e, a.key);
      TransitionRows(w.t.bindings, a.binding, Updated(b, a.target, a.change));
    }
  }

  lemma TransitionKeepsTables(w: World, a: TransitionArgs)
    requires Inv(w) && MayTransition(w, a) && Transition(w.t, a).Ok?
    requires InstanceTables.Lookup(w.t.journal, a.key).None?
    ensures var t' := Transition(w.t, a).value.0;
            && Chain(t'.bindings) && HazelOk(t'.bindings, w.hazel) && JournalOk(t'.bindings, t'.journal)
            && RecentOk(t') && Driven(t')
  {
    hide Chain, HazelOk, JournalOk, SagasOk, Rows, RecentOk, Driven, BackedOk, Unreplaced, HistoryOk, History, LeasesOk;
    var b := w.t.bindings[a.binding];
    InvRows(w);
    RowAt(w.t.bindings, a.binding);
    var b' := Updated(b, a.target, a.change);
    var e := TransitionEvent(b, a);
    JournalHistories(w.t.bindings, w.t.journal, a.binding);
    ClimbKeepsChain(w.t.bindings, a.binding, b');
    ClimbKeepsHazel(w.t.bindings, w.hazel, a.binding, b');
    HistoryGrows(b, History(w.t.journal, b.id), b', e);
    AppendKeepsJournal(w.t.bindings, w.t.journal, b', e);
    AppendKeepsDriven(w.t, w.t.bindings[a.binding := b'], e);
    TablesKeepRecent(w.t, w.t.bindings[a.binding := b'], w.t.journal + [e]);
  }

  lemma RowAt(bs: map<BindingId, Binding>, id: BindingId)
    requires Rows(bs) && id in bs
    ensures RowOk(id, bs[id])
  {
  }

  lemma TablesKeepRecent(t: Tables, bs: map<BindingId, Binding>, j: seq<JournalEvent>)
    requires RecentOk(t)
    ensures RecentOk(t.(bindings := bs, journal := j))
  {
  }

  lemma TransitionShape(t: Tables, a: TransitionArgs)
    requires Transition(t, a).Ok?
    ensures var r := Transition(t, a).value;
            && r.0.sagas == t.sagas
            && a.binding in r.0.bindings && r.0.bindings[a.binding] == r.1
            && (InstanceTables.Lookup(t.journal, a.key).Some? ==> r.0 == t)
  {
    hide PlatformTaken, Allowed, SameTransition;
  }

  lemma TransitionKeeps(w: World, a: TransitionArgs)
    requires Inv(w) && MayTransition(w, a) && Transition(w.t, a).Ok?
    ensures var w' := w.(t := Transition(w.t, a).value.0);
            Inv(w') && Later(w, w') && a.binding in w'.t.bindings && w'.t.bindings[a.binding] == Transition(w.t, a).value.1
    ensures var e := InstanceTables.Lookup(Transition(w.t, a).value.0.journal, a.key);
            e.Some? && SameTransition(e.value, a)
  {
    TransitionLater(w, a);
    TransitionShape(w.t, a);
    hide Chain, HazelOk, JournalOk, SagasOk, RecentOk, Driven, Rows, Later, MayTransition, Transition;
    if InstanceTables.Lookup(w.t.journal, a.key).None? {
      var w' := w.(t := Transition(w.t, a).value.0);
      TransitionKeepsTables(w, a);
      ChainRows(w'.t.bindings);
      SagasOkLater(w, w');
    }
  }

  lemma ChainRows(bs: map<BindingId, Binding>)
    requires Chain(bs)
    ensures Rows(bs)
  {
    hide Rows, Linked, UniqueKeys, UniqueGenerations, Continued;
  }

  // ---------------------------------------------------------------- create

  ghost predicate LineageKnown(bs: map<BindingId, Binding>, l: Lineage) {
    exists id :: id in bs && bs[id].lineage == l
  }

  /** A binding as prepare and replace_instance build it. */
  ghost predicate MayCreate(bs: map<BindingId, Binding>, b: Binding) {
    && RowOk(b.id, b)
    && (b.predecessor.None? ==> b.checkpointVersion == 0 && (b.generation == 1 || LineageKnown(bs, b.lineage)))
    && (b.predecessor.Some? ==> CausedBy(b.request, b.predecessor.value))
  }

  ghost predicate IsRow(bs: map<BindingId, Binding>, b: Binding) {
    b.id in bs && bs[b.id] == b
  }

  lemma ExistingRow(bs: map<BindingId, Binding>, key: Key)
    requires Rows(bs)
    ensures ByIdempotency(bs, key).Some? ==> IsRow(bs, ByIdempotency(bs, key).value)
  {
    var found := ByIdempotency(bs, key);
    if found.Some? {
      var id :| id in bs && bs[id] == found.value;
      assert RowOk(id, bs[id]);
    }
  }

  lemma NewRowLinks(t: Tables, b: Binding)
    requires Rows(t.bindings) && Continued(t.bindings) && MayCreate(t.bindings, b)
    requires Create(t, b).Ok? && ByIdempotency(t.bindings, b.key).None?
    ensures LinkOk(t.bindings, b)
  {
    KnownIsActive(t.bindings, b.lineage);
  }

  lemma KnownIsActive(bs: map<BindingId, Binding>, l: Lineage)
    requires Continued(bs)
    ensures LineageKnown(bs, l) ==> ActiveExists(bs, l)
  {
    if LineageKnown(bs, l) {
      var id :| id in bs && bs[id].lineage == l;
      assert ActiveExists(bs, bs[id].lineage);
    }
  }

  lemma CreateLater(w: World, b: Binding)
    requires MayCreate(w.t.bindings, b) && Create(w.t, b).Ok?
    ensures Later(w, w.(t := Create(w.t, b).value.0))
  {
    hide RowOk, CausedBy, LineageKnown;
    if ByIdempotency(w.t.bindings, b.key).None? {
      AppendLater(w.t.journal, PreparedEvent(b));
    }
  }

  lemma CreateShape(t: Tables, b: Binding)
    requires Create(t, b).Ok?
    ensures var r := Create(t, b).value;
            && r.0.sagas == t.sagas && r.1.request == b.request
            && (ByIdempotency(t.bindings, b.key).Some? ==> r.0 == t && r.1 == ByIdempotency(t.bindings, b.key).value)
            && (ByIdempotency(t.bindings, b.key).None? ==>
                  && r.1 == b && b.id !in t.bindings && b.status == Prepared && b.version == 1
                  && !HasKey(t.bindings, b.key) && !GenerationTaken(t.bindings, b.lineage, b.generation)
                  && (b.predecessor.None? ==> !ActiveExists(t.bindings, b.lineage))
                  && r.0 == t.(bindings := t.bindings[b.id := b], journal := t.journal + [PreparedEvent(b)]))
  {
    hide PlatformTaken, ActiveExists, GenerationTaken;
  }

  lemma CreateKeepsTables(w: World, b: Binding)
    requires Inv(w) && MayCreate(w.t.bindings, b) && Create(w.t, b).Ok? && ByIdempotency(w.t.bindings, b.key).None?
    ensures var t' := Create(w.t, b).value.0;
            && Chain(t'.bindings) && HazelOk(t'.bindings, w.hazel) && JournalOk(t'.bindings, t'.journal)
            && RecentOk(t') && Driven(t') && IsRow(t'.bindings, b)
  {
    var bs := w.t.bindings;
    ChainParts(bs);
    NewRowLinks(w.t, b);
    CreateShape(w.t, b);
    hide Create, Chain, HazelOk, JournalOk, SagasOk, Rows, Linked, Continued, RecentOk, Driven, HasKey, GenerationTaken, ActiveExists;
    NewRowKeepsChain(bs, b);
    NewRowKeepsHazel(bs, w.hazel, b);
    CreateKeepsJournal(bs, w.t.journal, b);
    AppendKeepsDriven(w.t, bs[b.id := b], PreparedEvent(b));
    TablesKeepRecent(w.t, bs[b.id := b], w.t.journal + [PreparedEvent(b)]);
  }

  lemma CreateKeepsJournal(bs: map<BindingId, Binding>, j: seq<JournalEvent>, b: Binding)
    requires JournalOk(bs, j) && b.id !in bs && b.status == Prepared && b.version == 1
    ensures JournalOk(bs[b.id := b], j + [PreparedEvent(b)])
  {
    var e := PreparedEvent(b);
    assert HistoryOk(b, [] + [e]) by { assert [] + [e] == [e]; }
    JournalKnown(bs, j);
    hide JournalOk, HistoryOk;
    NoHistory(bs, j, b.id);
    AppendKeepsJournal(bs, j, b, e);
  }

  lemma JournalKnown(bs: map<BindingId, Binding>, j: seq<JournalEvent>)
    requires JournalOk(bs, j)
    ensures forall i :: 0 <= i < |j| ==> j[i].binding in bs
  {
  }

  lemma ChainParts(bs: map<BindingId, Binding>)
    requires Chain(bs)
    ensures Rows(bs) && Linked(bs) && Continued(bs)
  {
    hide Rows, Linked, UniqueKeys, UniqueGenerations, Continued;
  }

  lemma CreateKeeps(w: World, b: Binding)
    requires Inv(w) && MayCreate(w.t.bindings, b) && Create(w.t, b).Ok?
    ensures var r := Create(w.t, b).value;
            Inv(w.(t := r.0)) && Later(w, w.(t := r.0)) && IsRow(r.0.bindings, r.1) && r.1.request == b.request
  {
    CreateLater(w, b);
    CreateShape(w.t, b);
    InvRows(w);
    ExistingRow(w.t.bindings, b.key);
    hide Chain, HazelOk, JournalOk, SagasOk, RecentOk, Driven, Rows, Later, MayCreate, Create, HasKey, GenerationTaken, ActiveExists;
    if ByIdempotency(w.t.bindings, b.key).None? {
      CreateKeepsTables(w, b);
      ChainRows(Create(w.t, b).value.0.bindings);
      SagasOkLater(w, w.(t := Create(w.t, b).value.0));
    }
  }

  // ---------------------------------------------------------------- commit_replacement

  /** The commit names the replacement that Hazel holds. */
  predicate CommitFor(a: CommitArgs, e: HazelEvent) {
    && e.payload.ReplacementPayload?
    && a.predecessor == e.payload.recoveredFrom && a.successor == e.payload.binding
    && a.checkpointVersion == e.version && a.checkpoint == e.payload && a.event == Sha(e)
  }

  predicate IsReplacementEvent(h: Logs, e: HazelEvent) {
    InLog(h, e) && e.payload.ReplacementPayload? && e.run == LineageOf(e.payload.recoveredFrom)
  }

  lemma CommitShape(t: Tables, a: CommitArgs, e: HazelEvent)
    requires CommitReplacement(t, a).Ok? && CommitFor(a, e)
    requires InstanceTables.Lookup(t.journal, a.key).None? && Rows(t.bindings)
    ensures && a.predecessor in t.bindings && a.successor in t.bindings
            && t.bindings[a.predecessor].status == Checkpointed && t.bindings[a.successor].status == Prepared
            && t.bindings[a.successor].predecessor == Some(a.predecessor)
            && InstanceTables.Lookup(t.journal, a.key + ":successor").None?
    ensures var p, s := t.bindings[a.predecessor], t.bindings[a.successor];
            && SameLineage(s, p)
            && CommitReplacement(t, a).value.0 ==
                 t.(bindings := AfterCommit(t.bindings, a.predecessor, a.successor, e),
                    journal := t.journal + [CommitEvents(p, s, a).0] + [CommitEvents(p, s, a).1])
            && CommitReplacement(t, a).value.1 == AfterCommit(t.bindings, a.predecessor, a.successor, e)[a.successor]
  {
    assert RowOk(a.predecessor, t.bindings[a.predecessor]);
  }

  lemma CommitReplayed(w: World, a: CommitArgs)
    requires JournalOk(w.t.bindings, w.t.journal)
    requires CommitReplacement(w.t, a).Ok? && InstanceTables.Lookup(w.t.journal, a.key).Some?
    ensures CommitReplacement(w.t, a).value.0 == w.t
    ensures a.predecessor in w.t.bindings && w.t.bindings[a.predecessor].status == Replaced
    ensures a.successor in w.t.bindings && CommitReplacement(w.t, a).value.1 == w.t.bindings[a.successor]
  {
    hide HistoryOk, History;
    LookupIn(w.t.journal, a.key);
  }

  lemma CommitGround(w: World, a: CommitArgs, e: HazelEvent)
    requires Inv(w) && IsReplacementEvent(w.hazel, e) && CommitFor(a, e)
    requires CommitReplacement(w.t, a).Ok? && InstanceTables.Lookup(w.t.journal, a.key).None?
    ensures MayCommit(w.t.bindings, w.hazel, a.predecessor, a.successor, e) && a.predecessor != a.successor
  {
    InvRows(w);
    CommitShape(w.t, a, e);
    hide Chain, HazelOk, JournalOk, SagasOk, RecentOk, Driven, CommitReplacement;
    assert RowOk(a.predecessor, w.t.bindings[a.predecessor]);
  }

  lemma CommitJournalLater(j: seq<JournalEvent>, x: JournalEvent, y: JournalEvent)
    requires InstanceTables.Lookup(j, x.key).None? && InstanceTables.Lookup(j, y.key).None? && x.key != y.key
    ensures JournalLater(j, j + [x] + [y])
  {
    AppendLater(j, x);
    LookupAppend(j, x, y.key);
    AppendLater(j + [x], y);
    hide JournalLater;
    JournalLaterTrans(j, j + [x], j + [x] + [y]);
  }

  lemma TablesLater(w: World, bs: map<BindingId, Binding>, j: seq<JournalEvent>)
    requires RowsLater(w.t.bindings, bs) && JournalLater(w.t.journal, j)
    ensures Later(w, w.(t := w.t.(bindings := bs, journal := j)))
  {
    hide RowsLater, JournalLater;
  }

  lemma CommitLater(w: World, a: CommitArgs, e: HazelEvent)
    requires Inv(w) && IsReplacementEvent(w.hazel, e) && CommitFor(a, e)
    requires CommitReplacement(w.t, a).Ok? && InstanceTables.Lookup(w.t.journal, a.key).None?
    ensures Later(w, w.(t := CommitReplacement(w.t, a).value.0))
  {
    InvRows(w);
    CommitShape(w.t, a, e);
    CommitGround(w, a, e);
    var es := CommitEvents(w.t.bindings[a.predecessor], w.t.bindings[a.successor], a);
    hide Inv, Rows, CommitReplacement, MayCommit, IsReplacementEvent, CommitFor, Later, RowsLater, JournalLater;
    assert es.0.key != es.1.key by { assert |es.0.key| != |es.1.key|; }
    CommitJournalLater(w.t.journal, es.0, es.1);
    CommitRowsLater(w.t.bindings, a.predecessor, a.successor, e);
    TablesLater(w, AfterCommit(w.t.bindings, a.predecessor, a.successor, e), w.t.journal + [es.0] + [es.1]);
  }

  lemma CommitRowsLater(bs: map<BindingId, Binding>, p: BindingId, s: BindingId, e: HazelEvent)
    requires p in bs && s in bs && p != s && bs[p].status == Checkpointed && bs[s].status == Prepared
    ensures RowsLater(bs, AfterCommit(bs, p, s, e))
  {
  }

  /** One row moves on, and its journal with it. */
  lemma RowKeepsJournal(bs: map<BindingId, Binding>, j: seq<JournalEvent>, id: BindingId, b': Binding, e: JournalEvent)
    requires JournalOk(bs, j) && id in bs && bs[id].version >= 1 && bs[id].status != Replaced
    requires b'.id == id && b'.version == bs[id].version + 1 && b'.predecessor == bs[id].predecessor
    requires e.binding == id && e.version == b'.version && e.from == Some(bs[id].status) && e.to == b'.status
    requires b'.status in Allowed(bs[id].status)
    requires e.kind != InstancePrepared && (e.kind == InstanceReplaced ==> b'.status == Replaced)
    requires e.kind == ReplacementPersisted <==> bs[id].version == 1 && b'.predecessor.Some?
    ensures JournalOk(bs[id := b'], j + [e])
  {
    JournalHistories(bs, j, id);
    hide JournalOk, HistoryOk, History;
    HistoryGrows(bs[id], History(j, id), b', e);
    AppendKeepsJournal(bs, j, b', e);
  }

  lemma CommitKeepsJournal(bs: map<BindingId, Binding>, j: seq<JournalEvent>, a: CommitArgs, e: HazelEvent)
    requires JournalOk(bs, j) && a.predecessor in bs && a.successor in bs && a.predecessor != a.successor
    requires RowOk(a.predecessor, bs[a.predecessor]) && RowOk(a.successor, bs[a.successor])
    requires bs[a.predecessor].status == Checkpointed && bs[a.successor].status == Prepared
    requires bs[a.successor].predecessor == Some(a.predecessor)
    ensures var es := CommitEvents(bs[a.predecessor], bs[a.successor], a);
            JournalOk(AfterCommit(bs, a.predecessor, a.successor, e), j + [es.0] + [es.1])
  {
    var p, s := a.predecessor, a.successor;
    var es := CommitEvents(bs[p], bs[s], a);
    TwoRowsKeepJournal(bs, j, p, CommittedPredecessor(bs[p]), es.0, s, AfterCommit(bs, p, s, e)[s], es.1);
  }

  lemma TwoRowsKeepJournal(bs: map<BindingId, Binding>, j: seq<JournalEvent>,
                           p: BindingId, p': Binding, x: JournalEvent, s: BindingId, s': Binding, y: JournalEvent)
    requires JournalOk(bs, j) && p in bs && s in bs && p != s
    requires bs[p].version > 1 && bs[p].status == Checkpointed
    requires p'.id == p && p'.version == bs[p].version + 1 && p'.predecessor == bs[p].predecessor && p'.status == Replaced
    requires x.binding == p && x.version == p'.version && x.from == Some(Checkpointed) && x.to == Replaced && x.kind == InstanceReplaced
    requires bs[s].version == 1 && bs[s].status == Prepared && bs[s].predecessor.Some?
    requires s'.id == s && s'.version == 2 && s'.predecessor == bs[s].predecessor && s'.status == Persisted
    requires y.binding == s && y.version == 2 && y.from == Some(Prepared) && y.to == Persisted && y.kind == ReplacementPersisted
    ensures JournalOk(bs[p := p'][s := s'], j + [x] + [y])
  {
    hide JournalOk;
    RowKeepsJournal(bs, j, p, p', x);
    SecondRowKeepsJournal(bs[p := p'], j + [x], s, s', y);
  }

  lemma SecondRowKeepsJournal(bs: map<BindingId, Binding>, j: seq<JournalEvent>, id: BindingId, b': Binding, e: JournalEvent)
    requires JournalOk(bs, j) && id in bs && bs[id].version == 1 && bs[id].status == Prepared && bs[id].predecessor.Some?
    requires b'.id == id && b'.version == 2 && b'.predecessor == bs[id].predecessor && b'.status == Persisted
    requires e.binding == id && e.version == 2 && e.from == Some(Prepared) && e.to == Persisted && e.kind == ReplacementPersisted
    ensures JournalOk(bs[id := b'], j + [e])
  {
    hide JournalOk;
    RowKeepsJournal(bs, j, id, b', e);
  }

  lemma JournalHistories(bs: map<BindingId, Binding>, j: seq<JournalEvent>, id: BindingId)
    requires JournalOk(bs, j) && id in bs
    ensures HistoryOk(bs[id], History(j, id))
  {
    hide HistoryOk, History;
  }

  lemma CommitKeepsTables(w: World, a: CommitArgs, e: HazelEvent)
    requires Inv(w) && IsReplacementEvent(w.hazel, e) && CommitFor(a, e)
    requires CommitReplacement(w.t, a).Ok? && InstanceTables.Lookup(w.t.journal, a.key).None?
    ensures var t' := CommitReplacement(w.t, a).value.0;
            && Chain(t'.bindings) && HazelOk(t'.bindings, w.hazel) && JournalOk(t'.bindings, t'.journal)
            && RecentOk(t') && Driven(t')
    ensures var r := CommitReplacement(w.t, a).value;
            && r.0.sagas == w.t.sagas && a.predecessor in r.0.bindings && r.0.bindings[a.predecessor].status == Replaced
            && a.successor in r.0.bindings && r.0.bindings[a.successor] == r.1
  {
    InvRows(w);
    CommitShape(w.t, a, e);
    CommitGround(w, a, e);
    var p, s := a.predecessor, a.successor;
    assert RowOk(p, w.t.bindings[p]) && RowOk(s, w.t.bindings[s]);
    var es := CommitEvents(w.t.bindings[p], w.t.bindings[s], a);
    hide Chain, HazelOk, JournalOk, SagasOk, RecentOk, Driven, Rows, CommitReplacement, IsReplacementEvent;
    CommitKeepsChain(w.t.bindings, w.hazel, p, s, e);
    CommitKeepsHazel(w.t.bindings, w.hazel, p, s, e);
    CommitKeepsJournal(w.t.bindings, w.t.journal, a, e);
    AppendKeepsDriven(w.t, w.t.bindings, es.0);
    AppendKeepsDriven(w.t.(journal := w.t.journal + [es.0]), AfterCommit(w.t.bindings, p, s, e), es.1);
    TablesKeepRecent(w.t, AfterCommit(w.t.bindings, p, s, e), w.t.journal + [es.0] + [es.1]);
  }

  lemma CommitKeeps(w: World, a: CommitArgs, e: HazelEvent)
    requires Inv(w) && IsReplacementEvent(w.hazel, e) && CommitFor(a, e) && CommitReplacement(w.t, a).Ok?
    ensures var r := CommitReplacement(w.t, a).value;
            && Inv(w.(t := r.0)) && Later(w, w.(t := r.0))
            && a.predecessor in r.0.bindings && r.0.bindings[a.predecessor].status == Replaced
            && a.successor in r.0.bindings && r.0.bindings[a.successor] == r.1
  {
    hide Chain, HazelOk, SagasOk, RecentOk, Driven, Rows, CommitReplacement, IsReplacementEvent, History, HistoryOk, Later, CommitFor, JournalOk;
    if InstanceTables.Lookup(w.t.journal, a.key).None? {
      CommitLater(w, a, e);
      CommitKeepsTables(w, a, e);
      var w' := w.(t := CommitReplacement(w.t, a).value.0);
      ChainRows(w'.t.bindings);
      SagasOkLater(w, w');
    } else {
      CommitReplayed(w, a);
      LaterRefl(w);
    }
  }
}
