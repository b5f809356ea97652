/**
 The registry invariant: generations form one chain per lineage with a single
 holder, every binding is backed by the Hazel log of its run, and each
 binding's journal is its history.
 */
module InstanceChain {
  import opened Prelude
  import opened InstanceContracts
  import opened InstanceTables
  import opened InstanceEffects

  // ---------------------------------------------------------------- chain

  /** The statuses that the service, the bridge and recovery ever write. */
  predicate InService(s: Status) {
    s !in {Closed, Revoked, Hold}
  }

  /** In service a binding only climbs: PREPARED to REPLACED. */
  function Height(s: Status): nat {
    match s
    case Prepared => 0
    case Persisted => 1
    case Bound => 2
    case Active => 3
    case Checkpointed => 4
    case Replaced => 5
    case Closed | Revoked | Hold => 6
  }

  predicate RowOk(id: BindingId, b: Binding) {
    && b.id == id
    && id == BindingOf(b.request)
    && b.key == b.request.key
    && b.lineage == b.request.lineage
    && b.leaseId == b.request.leaseId
    && b.generation >= 1
    && InService(b.status)
    && b.version >= 1
    && (b.status == Prepared <==> b.version == 1)
  }

  /** A successor's request was caused by an event of the binding it replaces. */
  predicate CausedBy(r: Request, p: BindingId) {
    r.causation.Some? && r.causation.value.event.payload.binding == p
  }

  predicate LinkOk(bs: map<BindingId, Binding>, b: Binding) {
    && (b.generation == 1 <==> b.predecessor.None?)
    && (b.predecessor.Some? ==>
          && b.predecessor.value in bs
          && SameLineage(b, bs[b.predecessor.value])
          && CausedBy(b.request, b.predecessor.value)
          && bs[b.predecessor.value].status == (if b.status == Prepared then Checkpointed else Replaced))
  }

  ghost predicate Rows(bs: map<BindingId, Binding>) {
    forall id :: id in bs ==> RowOk(id, bs[id])
  }

  ghost predicate UniqueKeys(bs: map<BindingId, Binding>) {
    forall i, j :: i in bs && j in bs && bs[i].key == bs[j].key ==> i == j
  }

  ghost predicate UniqueGenerations(bs: map<BindingId, Binding>) {
    forall i, j :: i in bs && j in bs && bs[i].lineage == bs[j].lineage && bs[i].generation == bs[j].generation ==> i == j
  }

  ghost predicate Linked(bs: map<BindingId, Binding>) {
    forall id :: id in bs ==> LinkOk(bs, bs[id])
  }

  /** No lineage is left with replaced bindings only. */
  ghost predicate Continued(bs: map<BindingId, Binding>) {
    forall id :: id in bs ==> ActiveExists(bs, bs[id].lineage)
  }

  ghost predicate Chain(bs: map<BindingId, Binding>) {
    Rows(bs) && UniqueKeys(bs) && UniqueGenerations(bs) && Linked(bs) && Continued(bs)
  }

  /** The binding whose checkpoint speaks for the lineage. */
  predicate Holder(b: Binding) {
    b.status in {Persisted, Bound, Active, Checkpointed} || (b.status == Prepared && b.predecessor.None?)
  }

  /** Every generation below a row exists, and all of them are past PREPARED. */
  lemma {:induction false} GenerationBelow(bs: map<BindingId, Binding>, id: BindingId, g: nat) returns (k: BindingId)
    requires Rows(bs) && Linked(bs)
    requires id in bs && 1 <= g <= bs[id].generation
    ensures k in bs && bs[k].lineage == bs[id].lineage && bs[k].generation == g
    ensures k == id || bs[k].status in {Checkpointed, Replaced}
    decreases bs[id].generation
  {
    if g == bs[id].generation {
      k := id;
    } else {
      assert LinkOk(bs, bs[id]);
      var p := bs[id].predecessor.value;
      assert RowOk(p, bs[p]);
      k := GenerationBelow(bs, p, g);
    }
  }

  /** Something past PREPARED above a row means the row was replaced. */
  lemma RowAbove(bs: map<BindingId, Binding>, i: BindingId, j: BindingId)
    requires Rows(bs) && UniqueGenerations(bs) && Linked(bs)
    requires i in bs && j in bs && bs[i].lineage == bs[j].lineage && bs[i].generation < bs[j].generation
    ensures bs[i].status == Replaced || (bs[i].status == Checkpointed && bs[j].predecessor == Some(i) && bs[j].status == Prepared)
  {
    var k := GenerationBelow(bs, j, bs[i].generation + 1);
    assert LinkOk(bs, bs[k]);
    assert RowOk(i, bs[i]);
    var p := bs[k].predecessor.value;
    assert bs[p].generation == bs[i].generation;
    assert p == i;
  }

  lemma HolderUnique(bs: map<BindingId, Binding>, i: BindingId, j: BindingId)
    requires Rows(bs) && UniqueGenerations(bs) && Linked(bs)
    requires i in bs && j in bs && bs[i].lineage == bs[j].lineage
    requires Holder(bs[i]) && Holder(bs[j])
    ensures i == j
  {
    if bs[i].generation < bs[j].generation {
      RowAbove(bs, i, j);
    } else if bs[j].generation < bs[i].generation {
      RowAbove(bs, j, i);
    }
  }

  // ---------------------------------------------------------------- Hazel

  predicate LogOk(l: Lineage, log: seq<HazelEvent>) {
    forall i :: 0 <= i < |log| ==>
      log[i].run == l && log[i].version == i + 1 && log[i].predecessor == LastHash(log[..i])
  }

  /** What the i-th event of a run's log says about the registry. */
  predicate NamesOk(bs: map<BindingId, Binding>, l: Lineage, i: nat, e: HazelEvent) {
    && e.payload.binding in bs
    && bs[e.payload.binding].lineage == l
    && (i == 0 <==> e.payload.PreparePayload?)
    && (e.payload.PreparePayload? ==> bs[e.payload.binding].predecessor.None?)
    && (e.payload.ReplacementPayload? ==>
          && e.payload.recoveredFrom in bs
          && bs[e.payload.recoveredFrom].lineage == l
          && bs[e.payload.recoveredFrom].status in {Checkpointed, Replaced}
          && bs[e.payload.recoveredFrom].checkpointVersion == i)
  }

  /** How a row's checkpoint columns relate to the log of its run. */
  predicate BackedOk(b: Binding, log: seq<HazelEvent>) {
    && (b.status == Prepared && b.predecessor.None? ==> b.checkpointVersion == 0)
    && (b.status != Prepared ==>
          && 1 <= b.checkpointVersion <= |log|
          && b.eventHash == Some(Sha(log[b.checkpointVersion - 1]))
          && b.checkpoint == Some(log[b.checkpointVersion - 1].payload)
          && log[b.checkpointVersion - 1].payload.binding == b.id)
    && (Holder(b) ==> |log| <= b.checkpointVersion + 1)
    && (b.status == Replaced ==> b.checkpointVersion + 1 <= |log|)
  }

  ghost predicate Logged(h: Logs) {
    forall l :: l in h ==> LogOk(l, h[l])
  }

  ghost predicate Named(bs: map<BindingId, Binding>, h: Logs) {
    forall l, i :: l in h && 0 <= i < |h[l]| ==> NamesOk(bs, l, i, h[l][i])
  }

  ghost predicate Backed(bs: map<BindingId, Binding>, h: Logs) {
    forall id :: id in bs ==> BackedOk(bs[id], Run(h, bs[id].lineage))
  }

  ghost predicate HazelOk(bs: map<BindingId, Binding>, h: Logs) {
    Logged(h) && Named(bs, h) && Backed(bs, h)
  }

  /** `e` is the accepted event of its version. */
  predicate InLog(h: Logs, e: HazelEvent) {
    var log := Run(h, e.run);
    1 <= e.version <= |log| && log[e.version - 1] == e
  }

  /** The guard under which a write keeps the registry backed. */
  ghost predicate MayPersist(bs: map<BindingId, Binding>, e: HazelEvent, base: BindingId) {
    && base in bs && bs[base].lineage == e.run
    && e.payload.binding in bs && bs[e.payload.binding].lineage == e.run
    && (e.version == 1 <==> e.payload.PreparePayload?)
    && (e.version != 1 ==> Height(bs[base].status) >= 3 && bs[base].checkpointVersion + 1 >= e.version)
    && (e.payload.ReplacementPayload? ==> e.payload.recoveredFrom == base && Height(bs[base].status) >= 4)
  }

  /** A write of version n + 1 finds the base still holding checkpoint n. */
  lemma BaseStillHolds(bs: map<BindingId, Binding>, h: Logs, e: HazelEvent, base: BindingId)
    requires Chain(bs) && HazelOk(bs, h) && MayPersist(bs, e, base) && e.version != 1
    requires Accepts(Run(h, e.run), e)
    ensures Holder(bs[base]) && bs[base].checkpointVersion + 1 == e.version
  {
    assert BackedOk(bs[base], Run(h, e.run));
    assert RowOk(base, bs[base]);
  }

  lemma PersistKeepsLogs(h: Logs, e: HazelEvent)
    requires Logged(h) && Accepts(Run(h, e.run), e)
    ensures Logged(h[e.run := Run(h, e.run) + [e]])
  {
    var log := Run(h, e.run);
    var log' := log + [e];
    forall i | 0 <= i < |log'|
      ensures log'[i].run == e.run && log'[i].version == i + 1 && log'[i].predecessor == LastHash(log'[..i])
    {
      if i < |log| {
        assert log'[..i] == log[..i];
      } else {
        assert log'[..i] == log;
      }
    }
  }

  /** A replacement is only ever prepared in a run that Hazel already knows. */
  lemma SuccessorHasLog(bs: map<BindingId, Binding>, h: Logs, id: BindingId)
    requires Chain(bs) && HazelOk(bs, h) && id in bs
    ensures bs[id].predecessor.Some? ==> Run(h, bs[id].lineage) != []
  {
    assert LinkOk(bs, bs[id]);
    if bs[id].predecessor.Some? {
      var p := bs[bs[id].predecessor.value];
      assert BackedOk(p, Run(h, p.lineage));
    }
  }

  lemma PersistKeepsNames(bs: map<BindingId, Binding>, h: Logs, e: HazelEvent, base: BindingId)
    requires Chain(bs) && HazelOk(bs, h) && MayPersist(bs, e, base)
    requires Accepts(Run(h, e.run), e)
    ensures Named(bs, h[e.run := Run(h, e.run) + [e]])
  {
    hide Chain, BackedOk, Backed, Logged;
    var log := Run(h, e.run);
    if e.version != 1 {
      BaseStillHolds(bs, h, e, base);
    } else {
      SuccessorHasLog(bs, h, e.payload.binding);
    }
    RowOfChain(bs, base);
    NewestNames(bs, e, |log|, base);
  }

  lemma RowOfChain(bs: map<BindingId, Binding>, id: BindingId)
    requires Chain(bs) && id in bs
    ensures RowOk(id, bs[id])
  {
    hide RowOk, UniqueKeys, UniqueGenerations, Linked, Continued;
  }

  lemma NewestNames(bs: map<BindingId, Binding>, e: HazelEvent, i: nat, base: BindingId)
    requires MayPersist(bs, e, base) && e.version == i + 1 && RowOk(base, bs[base])
    requires e.version != 1 ==> bs[base].checkpointVersion + 1 == e.version
    requires e.version == 1 ==> bs[e.payload.binding].predecessor.None?
    ensures NamesOk(bs, e.run, i, e)
  {
  }

  lemma PersistKeepsBacking(bs: map<BindingId, Binding>, h: Logs, e: HazelEvent, base: BindingId)
    requires Chain(bs) && HazelOk(bs, h) && MayPersist(bs, e, base)
    requires Accepts(Run(h, e.run), e)
    ensures Backed(bs, h[e.run := Run(h, e.run) + [e]])
  {
    var log := Run(h, e.run);
    var h' := h[e.run := log + [e]];
    forall id | id in bs
      ensures BackedOk(bs[id], Run(h', bs[id].lineage))
    {
      assert BackedOk(bs[id], Run(h, bs[id].lineage));
      if bs[id].lineage == e.run && Holder(bs[id]) && e.version != 1 {
        BaseStillHolds(bs, h, e, base);
        HolderUnique(bs, id, base);
      }
    }
  }

  lemma PersistKeepsHazel(bs: map<BindingId, Binding>, h: Logs, e: HazelEvent, base: BindingId)
    requires Chain(bs) && HazelOk(bs, h) && MayPersist(bs, e, base)
    requires Accepts(Run(h, e.run), e)
    ensures HazelOk(bs, h[e.run := Run(h, e.run) + [e]])
  {
    PersistKeepsLogs(h, e);
    PersistKeepsNames(bs, h, e, base);
    PersistKeepsBacking(bs, h, e, base);
  }

  // ---------------------------------------------------------------- one row changes

  /** The columns that no statement ever updates. */
  predicate SameIdentity(a: Binding, b: Binding) {
    && a.id == b.id && a.lineage == b.lineage && a.profile == b.profile && a.request == b.request
    && a.leaseId == b.leaseId && a.authorityRef == b.authorityRef && a.generation == b.generation
    && a.bootstrap == b.bootstrap && a.predecessor == b.predecessor && a.key == b.key && a.createdAt == b.createdAt
  }

  /** A transition of a binding that stays in the chain where it is. */
  predicate ClimbsInPlace(b: Binding, b': Binding) {
    && SameIdentity(b, b')
    && b'.version == b.version + 1
    && b'.status in {Persisted, Bound, Active, Checkpointed}
    && b.status != Replaced && InService(b.status)
    && (b.status == Prepared ==> b.predecessor.None?)
    && (b.status == Checkpointed ==> b'.status == Checkpointed)
  }

  lemma ClimbKeepsRows(bs: map<BindingId, Binding>, id: BindingId, b': Binding)
    requires Rows(bs) && id in bs && ClimbsInPlace(bs[id], b')
    ensures Rows(bs[id := b'])
  {
    assert RowOk(id, bs[id]);
  }

  lemma UpdateKeepsUnique(bs: map<BindingId, Binding>, id: BindingId, b': Binding)
    requires UniqueKeys(bs) && UniqueGenerations(bs) && id in bs && SameIdentity(bs[id], b')
    ensures UniqueKeys(bs[id := b']) && UniqueGenerations(bs[id := b'])
  {
  }

  lemma ClimbKeepsLinks(bs: map<BindingId, Binding>, id: BindingId, b': Binding)
    requires Rows(bs) && Linked(bs) && id in bs && ClimbsInPlace(bs[id], b')
    ensures Linked(bs[id := b'])
  {
    var bs' := bs[id := b'];
    assert LinkOk(bs, bs[id]);
    forall i | i in bs' ensures LinkOk(bs', bs'[i]) {
      if i != id {
        assert LinkOk(bs, bs[i]);
      }
    }
  }

  lemma ClimbKeepsChain(bs: map<BindingId, Binding>, id: BindingId, b': Binding)
    requires Chain(bs) && id in bs && ClimbsInPlace(bs[id], b')
    ensures Chain(bs[id := b'])
  {
    ClimbKeepsRows(bs, id, b');
    UpdateKeepsUnique(bs, id, b');
    ClimbKeepsLinks(bs, id, b');
    ContinuedByRow(bs, bs[id := b'], id);
  }

  /** Lineages keep their live row when only the lineage of a live row changes. */
  lemma ContinuedByRow(bs: map<BindingId, Binding>, bs': map<BindingId, Binding>, id: BindingId)
    requires Continued(bs) && id in bs' && Nonterminal(bs'[id].status)
    requires forall i :: i in bs ==> i in bs' && bs'[i].lineage == bs[i].lineage
    requires forall i :: i in bs' ==> bs'[i].lineage == bs'[id].lineage || (i in bs && bs[i] == bs'[i])
    ensures Continued(bs')
  {
    forall i | i in bs' ensures ActiveExists(bs', bs'[i].lineage) {
      if bs'[i].lineage != bs'[id].lineage {
        assert ActiveExists(bs, bs[i].lineage);
        var j :| j in bs && bs[j].lineage == bs[i].lineage && Nonterminal(bs[j].status);
        assert j in bs' && bs'[j] == bs[j];
      }
    }
  }

  /** No replacement of `id` was written at a version other than its checkpoint's successor. */
  ghost predicate Unreplaced(h: Logs, id: BindingId, checkpointVersion: nat) {
    forall l, i :: l in h && 0 <= i < |h[l]| && h[l][i].payload.ReplacementPayload? && h[l][i].payload.recoveredFrom == id
      ==> i == checkpointVersion
  }

  lemma ClimbKeepsNames(bs: map<BindingId, Binding>, h: Logs, id: BindingId, b': Binding)
    requires Named(bs, h) && id in bs && ClimbsInPlace(bs[id], b')
    requires Unreplaced(h, id, b'.checkpointVersion)
    ensures Named(bs[id := b'], h)
  {
    var bs' := bs[id := b'];
    forall l, i | l in h && 0 <= i < |h[l]| ensures NamesOk(bs', l, i, h[l][i]) {
      assert NamesOk(bs, l, i, h[l][i]);
    }
  }

  lemma ClimbKeepsHazel(bs: map<BindingId, Binding>, h: Logs, id: BindingId, b': Binding)
    requires HazelOk(bs, h) && id in bs && ClimbsInPlace(bs[id], b')
    requires BackedOk(b', Run(h, b'.lineage))
    requires Unreplaced(h, id, b'.checkpointVersion)
    ensures HazelOk(bs[id := b'], h)
  {
    ClimbKeepsNames(bs, h, id, b');
  }

  /** A checkpoint column that does not move leaves the replacements where they are. */
  lemma UnreplacedBySame(bs: map<BindingId, Binding>, h: Logs, id: BindingId)
    requires HazelOk(bs, h) && id in bs
    ensures Unreplaced(h, id, bs[id].checkpointVersion)
  {
    forall l, i | l in h && 0 <= i < |h[l]| && h[l][i].payload.ReplacementPayload? && h[l][i].payload.recoveredFrom == id
      ensures i == bs[id].checkpointVersion
    {
      assert NamesOk(bs, l, i, h[l][i]);
    }
  }

  // ---------------------------------------------------------------- a new row

  /** Hazel knows no run whose lineage has no live row. */
  lemma NoOrphanLog(bs: map<BindingId, Binding>, h: Logs, l: Lineage)
    requires Continued(bs) && Named(bs, h)
    ensures !ActiveExists(bs, l) ==> Run(h, l) == []
  {
    var log := Run(h, l);
    if log != [] {
      assert NamesOk(bs, l, 0, log[0]);
      assert ActiveExists(bs, bs[log[0].payload.binding].lineage);
    }
  }

  lemma NewRowKeepsHazel(bs: map<BindingId, Binding>, h: Logs, b: Binding)
    requires Continued(bs) && HazelOk(bs, h) && b.id !in bs && b.status == Prepared
    requires b.predecessor.None? ==> b.checkpointVersion == 0 && !ActiveExists(bs, b.lineage)
    ensures HazelOk(bs[b.id := b], h)
  {
    var bs' := bs[b.id := b];
    NoOrphanLog(bs, h, b.lineage);
    NewRowKeepsNames(bs, h, b);
  }

  lemma NewRowKeepsNames(bs: map<BindingId, Binding>, h: Logs, b: Binding)
    requires Named(bs, h) && b.id !in bs
    ensures Named(bs[b.id := b], h)
  {
    var bs' := bs[b.id := b];
    forall l, i | l in h && 0 <= i < |h[l]| ensures NamesOk(bs', l, i, h[l][i]) {
      assert NamesOk(bs, l, i, h[l][i]);
    }
  }

  lemma NewRowKeepsUnique(bs: map<BindingId, Binding>, b: Binding)
    requires UniqueKeys(bs) && UniqueGenerations(bs) && b.id !in bs
    requires !HasKey(bs, b.key) && !GenerationTaken(bs, b.lineage, b.generation)
    ensures UniqueKeys(bs[b.id := b]) && UniqueGenerations(bs[b.id := b])
  {
  }

  lemma NewRowKeepsLinks(bs: map<BindingId, Binding>, b: Binding)
    requires Linked(bs) && b.id !in bs && LinkOk(bs, b)
    ensures Linked(bs[b.id := b])
  {
    var bs' := bs[b.id := b];
    forall i | i in bs' ensures LinkOk(bs', bs'[i]) {
      assert i != b.id ==> LinkOk(bs, bs[i]);
    }
  }

  lemma NewRowKeepsChain(bs: map<BindingId, Binding>, b: Binding)
    requires Chain(bs) && b.id !in bs && RowOk(b.id, b) && b.status == Prepared
    requires !HasKey(bs, b.key) && !GenerationTaken(bs, b.lineage, b.generation)
    requires LinkOk(bs, b)
    ensures Chain(bs[b.id := b])
  {
    NewRowKeepsUnique(bs, b);
    NewRowKeepsLinks(bs, b);
    ContinuedByRow(bs, bs[b.id := b], b.id);
  }

  // ---------------------------------------------------------------- a replacement is committed

  /** The rows that commit_replacement finds, and the event it adopts. */
  ghost predicate MayCommit(bs: map<BindingId, Binding>, h: Logs, p: BindingId, s: BindingId, e: HazelEvent) {
    && p in bs && s in bs && bs[p].status == Checkpointed && bs[s].status == Prepared
    && bs[s].predecessor == Some(p)
    && InLog(h, e) && e.run == bs[p].lineage
    && e.payload.ReplacementPayload? && e.payload.binding == s && e.payload.recoveredFrom == p
  }

  function AfterCommit(bs: map<BindingId, Binding>, p: BindingId, s: BindingId, e: HazelEvent): map<BindingId, Binding>
    requires p in bs && s in bs
  {
    bs[p := bs[p].(status := Replaced, version := bs[p].version + 1)]
      [s := bs[s].(status := Persisted, version := bs[s].version + 1, checkpointVersion := e.version,
                   checkpoint := Some(e.payload), eventHash := Some(Sha(e)))]
  }

  lemma CommitKeepsRows(bs: map<BindingId, Binding>, p: BindingId, s: BindingId, e: HazelEvent)
    requires Rows(bs) && p in bs && s in bs && bs[p].status == Checkpointed && bs[s].status == Prepared
    ensures Rows(AfterCommit(bs, p, s, e))
  {
    assert RowOk(p, bs[p]) && RowOk(s, bs[s]);
  }

  lemma CommitKeepsUnique(bs: map<BindingId, Binding>, p: BindingId, s: BindingId, e: HazelEvent)
    requires UniqueKeys(bs) && UniqueGenerations(bs) && p in bs && s in bs && p != s
    ensures UniqueKeys(AfterCommit(bs, p, s, e)) && UniqueGenerations(AfterCommit(bs, p, s, e))
  {
    var p' := bs[p].(status := Replaced, version := bs[p].version + 1);
    UpdateKeepsUnique(bs, p, p');
    UpdateKeepsUnique(bs[p := p'], s, AfterCommit(bs, p, s, e)[s]);
  }

  lemma CommitKeepsLinks(bs: map<BindingId, Binding>, p: BindingId, s: BindingId, e: HazelEvent)
    requires Rows(bs) && UniqueGenerations(bs) && Linked(bs)
    requires p in bs && s in bs && bs[p].status == Checkpointed && bs[s].status == Prepared && bs[s].predecessor == Some(p)
    ensures Linked(AfterCommit(bs, p, s, e))
  {
    var bs' := AfterCommit(bs, p, s, e);
    assert RowOk(p, bs[p]) && LinkOk(bs, bs[s]);
    forall i | i in bs' ensures LinkOk(bs', bs'[i]) {
      assert LinkOk(bs, bs[i]);
      OneSuccessor(bs, p, s, i);
    }
  }

  /** Two rows with the same predecessor are the same row; a prepared row has no successor. */
  lemma OneSuccessor(bs: map<BindingId, Binding>, p: BindingId, s: BindingId, i: BindingId)
    requires UniqueGenerations(bs) && Linked(bs)
    requires s in bs && i in bs && bs[s].predecessor == Some(p)
    ensures bs[i].predecessor == Some(p) ==> i == s
    ensures bs[s].status == Prepared ==> bs[i].predecessor != Some(s)
  {
    assert LinkOk(bs, bs[s]) && LinkOk(bs, bs[i]);
  }

  lemma LinkAt(bs: map<BindingId, Binding>, id: BindingId)
    requires Linked(bs) && id in bs
    ensures LinkOk(bs, bs[id])
  {
  }

  lemma CommitKeepsChain(bs: map<BindingId, Binding>, h: Logs, p: BindingId, s: BindingId, e: HazelEvent)
    requires Chain(bs) && MayCommit(bs, h, p, s, e)
    ensures Chain(AfterCommit(bs, p, s, e))
  {
    hide RowOk, Rows, UniqueKeys, UniqueGenerations, Linked, Continued, ActiveExists, InLog;
    LinkAt(bs, s);
    CommitKeepsRows(bs, p, s, e);
    CommitKeepsUnique(bs, p, s, e);
    CommitKeepsLinks(bs, p, s, e);
    ContinuedByRow(bs, AfterCommit(bs, p, s, e), s);
  }

  /** The committed event is the successor of the predecessor's checkpoint. */
  lemma CommitVersion(bs: map<BindingId, Binding>, h: Logs, p: BindingId, s: BindingId, e: HazelEvent)
    requires HazelOk(bs, h) && MayCommit(bs, h, p, s, e)
    ensures bs[p].checkpointVersion + 1 == e.version == |Run(h, e.run)|
  {
    assert NamesOk(bs, e.run, e.version - 1, Run(h, e.run)[e.version - 1]);
    assert BackedOk(bs[p], Run(h, e.run));
  }

  lemma CommitKeepsHazel(bs: map<BindingId, Binding>, h: Logs, p: BindingId, s: BindingId, e: HazelEvent)
    requires Chain(bs) && HazelOk(bs, h) && MayCommit(bs, h, p, s, e)
    ensures HazelOk(AfterCommit(bs, p, s, e), h)
  {
    CommitVersion(bs, h, p, s, e);
    CommitKeepsNames(bs, h, p, s, e);
    CommitKeepsBacking(bs, h, p, s, e);
  }

  lemma CommitKeepsBacking(bs: map<BindingId, Binding>, h: Logs, p: BindingId, s: BindingId, e: HazelEvent)
    requires Rows(bs) && Linked(bs) && Backed(bs, h) && MayCommit(bs, h, p, s, e)
    requires bs[p].checkpointVersion + 1 == e.version == |Run(h, e.run)|
    ensures Backed(AfterCommit(bs, p, s, e), h)
  {
    hide BackedOk, RowOk, LinkOk;
    var bs' := AfterCommit(bs, p, s, e);
    PairBacked(bs, h, p, s, e);
    forall id | id in bs' ensures BackedOk(bs'[id], Run(h, bs'[id].lineage)) {
      if id != p && id != s {
        assert bs'[id] == bs[id];
      }
    }
  }

  lemma PairBacked(bs: map<BindingId, Binding>, h: Logs, p: BindingId, s: BindingId, e: HazelEvent)
    requires Rows(bs) && Linked(bs) && Backed(bs, h) && MayCommit(bs, h, p, s, e)
    requires bs[p].checkpointVersion + 1 == e.version == |Run(h, e.run)|
    ensures var bs' := AfterCommit(bs, p, s, e);
            BackedOk(bs'[p], Run(h, bs'[p].lineage)) && BackedOk(bs'[s], Run(h, bs'[s].lineage))
  {
    assert RowOk(s, bs[s]) && LinkOk(bs, bs[s]) && RowOk(p, bs[p]);
    assert BackedOk(bs[p], Run(h, e.run));
  }

  /** A binding still PREPARED has never been replaced in Hazel. */
  lemma CommitKeepsNames(bs: map<BindingId, Binding>, h: Logs, p: BindingId, s: BindingId, e: HazelEvent)
    requires Named(bs, h) && MayCommit(bs, h, p, s, e)
    ensures Named(AfterCommit(bs, p, s, e), h)
  {
    var bs' := AfterCommit(bs, p, s, e);
    forall l, i | l in h && 0 <= i < |h[l]| ensures NamesOk(bs', l, i, h[l][i]) {
      assert NamesOk(bs, l, i, h[l][i]);
    }
  }

  // ---------------------------------------------------------------- journal

  function StatusBefore(hist: seq<JournalEvent>, i: nat): Option<Status>
    requires i <= |hist|
  {
    if i == 0 then None else Some(hist[i - 1].to)
  }

  /** The i-th journal row of a binding continues the row before it. */
  predicate EntryOk(hist: seq<JournalEvent>, i: nat, succeeds: bool)
    requires i < |hist|
  {
    && hist[i].version == i + 1
    && hist[i].from == StatusBefore(hist, i)
    && (i > 0 ==> hist[i].to in Allowed(hist[i].from.value))
    && (i == 0 <==> hist[i].kind == InstancePrepared)
    && (hist[i].kind == ReplacementPersisted <==> i == 1 && succeeds)
  }

  /** The journal rows of a binding are exactly its life so far. */
  ghost predicate HistoryOk(b: Binding, hist: seq<JournalEvent>) {
    && |hist| == b.version
    && (forall i :: 0 <= i < |hist| ==> EntryOk(hist, i, b.predecessor.Some?))
    && (hist != [] ==> Last(hist).to == b.status)
  }

  ghost predicate JournalOk(bs: map<BindingId, Binding>, journal: seq<JournalEvent>) {
    && (forall i :: 0 <= i < |journal| ==> journal[i].binding in bs)
    && (forall i :: 0 <= i < |journal| && journal[i].kind == InstanceReplaced ==> bs[journal[i].binding].status == Replaced)
    && (forall id :: id in bs ==> HistoryOk(bs[id], History(journal, id)))
  }
}
