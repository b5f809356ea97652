/**
 A checkpoint that quotes a version its call has not read, in a state that is
 otherwise one of a run: it commits an old checkpoint over two newer ones.
 */
module InstanceLateCheckpoint {
  import opened Prelude
  import opened InstanceContracts
  import opened InstanceTables
  import opened InstanceEffects
  import opened InstanceProtocol
  import opened InstanceChain
  import opened InstanceInvariant
  import opened InstanceCalls
  import opened InstanceProperties
  import opened InstanceWitnesses

  const ROW: Binding := RootAt(Checkpointed, 7, E4)
  const ONE_ROW: map<BindingId, Binding> := map[ROOT := ROW]
  const LOG: seq<HazelEvent> := [E1, E2, E3, E4]

  function SagaOf(e: HazelEvent, st: SagaState): Saga {
    Saga(ROOT, CheckpointSaga, CheckpointFingerprint(e.payload, AUTHORITY), "checkpoint-lease", st)
  }

  /** Three checkpoints are done; a fourth call has adopted the first of them and waits to commit. */
  const SAVED: map<Key, Saga> := map[
    "checkpoint" := SagaOf(E2, LeaseFinalized), "two" := SagaOf(E3, LeaseFinalized), "three" := SagaOf(E4, LeaseFinalized),
    "late" := SagaOf(E2, ReadbackVerified)]

  function Saved(version: nat, key: Key, e: HazelEvent): JournalEvent {
    JournalEvent(ROOT, InstanceCheckpointed, Some(Checkpointed), Checkpointed, version, key,
                 TransitionBody(CheckpointNote(e.version, Sha(e), CheckpointFingerprint(e.payload, AUTHORITY)), NO_CHANGE))
  }

  const LONG_LIFE: seq<JournalEvent> := LIFE + [Saved(6, "two", E3)] + [Saved(7, "three", E4)]

  const FOUR_USES: Lease :=
    Lease(CheckpointAction, "authority", false, 4, 4, LeaseConsumed, true,
          map["checkpoint" := CheckpointUse(ROOT, 2)]["two" := CheckpointUse(ROOT, 3)]["three" := CheckpointUse(ROOT, 4)]
             ["late" := CheckpointUse(ROOT, 2)])

  const LATE_WORLD: World := World(
    map["ocs" := PROFILE], Tables(ONE_ROW, LONG_LIFE, SAVED, map[]), map[LINE := LOG],
    map["lease" := UsedBy(BindAction, "key", BindUse(ROOT)), "checkpoint-lease" := FOUR_USES])

  lemma KeysDiffer()
    ensures "checkpoint" != "two" && "checkpoint" != "three" && "checkpoint" != "late" && "two" != "three" && "two" != "late"
    ensures "three" != "late" && "lease" != "checkpoint-lease"
  {
    assert |"checkpoint"| == 10 && |"two"| == 3 && |"three"| == 5 && |"late"| == 4 && |"lease"| == 5 && |"checkpoint-lease"| == 16;
  }

  // ---------------------------------------------------------------- the invariant

  lemma OneChain()
    ensures Chain(ONE_ROW)
  {
    assert RowOk(ROOT, ROW) && LinkOk(ONE_ROW, ROW);
    assert ROOT in ONE_ROW && ONE_ROW[ROOT] == ROW && Nonterminal(ROW.status);
    assert ActiveExists(ONE_ROW, LINE);
  }

  lemma LogInOrder()
    ensures LogOk(LINE, LOG)
  {
    assert LastHash(LOG[..0]) == None;
    assert LOG[..1] == [E1] && LastHash(LOG[..1]) == Some(Sha(E1));
    assert LOG[..2] == [E1, E2] && LastHash(LOG[..2]) == Some(Sha(E2));
    assert LOG[..3] == [E1, E2, E3] && LastHash(LOG[..3]) == Some(Sha(E3));
  }

  lemma LogBacks()
    ensures HazelOk(ONE_ROW, map[LINE := LOG])
  {
    hide RowOk, LinkOk, LogOk;
    LogInOrder();
    assert forall i :: 0 <= i < |LOG| ==> NamesOk(ONE_ROW, LINE, i, LOG[i]);
    assert BackedOk(ROW, LOG);
  }

  lemma SavedRows()
    ensures var two, three := Saved(6, "two", E3), Saved(7, "three", E4);
            && two.version == 6 && three.version == 7 && two.kind == three.kind == InstanceCheckpointed
            && two.from == three.from == Some(Checkpointed) && two.to == three.to == Checkpointed
    ensures ROW.version == 7 && ROW.status == Checkpointed && ROW.predecessor == None
  {
  }

  lemma LongHistory()
    ensures HistoryOk(ROW, LONG_LIFE)
  {
    hide Saved, RootAt;
    SavedRows();
    assert EntryOk(LONG_LIFE, 0, false) && EntryOk(LONG_LIFE, 1, false) && EntryOk(LONG_LIFE, 2, false);
    assert EntryOk(LONG_LIFE, 3, false) && EntryOk(LONG_LIFE, 4, false);
    assert Checkpointed in Allowed(Checkpointed);
    assert EntryOk(LONG_LIFE, 5, false) && EntryOk(LONG_LIFE, 6, false);
  }

  lemma OneBinding()
    ensures forall e :: e in LONG_LIFE ==> e.binding == ROOT && e.kind != InstanceReplaced
  {
  }

  lemma LongJournal()
    ensures JournalOk(ONE_ROW, LONG_LIFE)
  {
    hide HistoryOk, History, Saved, RootAt;
    LongHistory();
    OneBinding();
    OneHistory(LONG_LIFE, ROOT);
  }

  lemma Journaled()
    ensures InstanceTables.Lookup(LONG_LIFE, "checkpoint") == Some(LIFE[4])
    ensures InstanceTables.Lookup(LONG_LIFE, "two") == Some(Saved(6, "two", E3))
    ensures InstanceTables.Lookup(LONG_LIFE, "three") == Some(Saved(7, "three", E4))
    ensures InstanceTables.Lookup(LONG_LIFE, "late").None?
  {
    hide Saved;
    KeysDiffer();
    KeysOf();
    var two, three := Saved(6, "two", E3), Saved(7, "three", E4);
    assert Last(LIFE) == LIFE[4] && LIFE[4].key == "checkpoint";
    NotFound(LIFE, "late");
    LookupAppend(LIFE, two, "checkpoint");
    LookupAppend(LIFE, two, "two");
    LookupAppend(LIFE, two, "late");
    LookupAppend(LIFE + [two], three, "checkpoint");
    LookupAppend(LIFE + [two], three, "two");
    LookupAppend(LIFE + [two], three, "three");
    LookupAppend(LIFE + [two], three, "late");
  }

  lemma KeysOf()
    ensures Saved(6, "two", E3).key == "two" && Saved(7, "three", E4).key == "three"
    ensures forall e :: e in LIFE ==> |e.key| != 4
  {
  }

  lemma PayloadsWritten()
    ensures Written(map[LINE := LOG], LINE, E2.payload) && Written(map[LINE := LOG], LINE, E3.payload)
            && Written(map[LINE := LOG], LINE, E4.payload)
  {
    assert InLog(map[LINE := LOG], E2) && InLog(map[LINE := LOG], E3) && InLog(map[LINE := LOG], E4);
  }

  /** A saga of the world is in order when its payload is in Hazel and, once committed, its row in the journal. */
  lemma SavedSaga(key: Key, e: HazelEvent, st: SagaState)
    requires e in {E2, E3, E4} && Written(map[LINE := LOG], LINE, e.payload)
    requires Rank(st) >= 3 ==> CheckpointJournaled(LONG_LIFE, key, ROOT)
    ensures SagaOk(LATE_WORLD, key, SagaOf(e, st))
  {
    hide InstanceTables.Lookup, CheckpointJournaled, Written;
    KeysDiffer();
  }

  lemma SavedSagas()
    ensures SagasOk(LATE_WORLD) && RecentOk(LATE_WORLD.t)
  {
    hide SagaOk, Written, InstanceTables.Lookup, RootAt;
    KeysDiffer();
    PayloadsWritten();
    Journaled();
    SavedSaga("checkpoint", E2, LeaseFinalized);
    SavedSaga("two", E3, LeaseFinalized);
    SavedSaga("three", E4, LeaseFinalized);
    SavedSaga("late", E2, ReadbackVerified);
    assert SAVED.Keys == {"checkpoint", "two", "three", "late"};
  }

  lemma SavedDriven()
    ensures Driven(LATE_WORLD.t)
  {
    KeysDiffer();
    assert DrivenBySaga(SAVED, LIFE[4]) && DrivenBySaga(SAVED, Saved(6, "two", E3)) && DrivenBySaga(SAVED, Saved(7, "three", E4));
  }

  lemma LeasesInOrder()
    ensures LeasesOk(LATE_WORLD.leases)
  {
    KeysDiffer();
    assert |FOUR_USES.reservations| == 4;
  }

  lemma LateWorldOk()
    ensures Inv(LATE_WORLD)
  {
    hide LeasesOk, Chain, HazelOk, JournalOk, SagasOk, RecentOk, Driven;
    LeasesInOrder();
    OneChain();
    LogBacks();
    LongJournal();
    SavedSagas();
    SavedDriven();
  }

  // ---------------------------------------------------------------- the call

  /** It read the row ACTIVE at version 4, and quotes `expected`. */
  function Late(expected: nat): DrivePc {
    DriveCommit(CheckpointPlan(RootAt(Active, 4, E1), expected, "late", E2.payload, AUTHORITY), ReadbackVerified, E2)
  }

  lemma LateSeen()
    ensures Seen(LATE_WORLD, RootAt(Active, 4, E1))
  {
    assert InLog(LATE_WORLD.hazel, E1);
  }

  lemma LateAdopted()
    ensures Verified(LATE_WORLD, Late(4).plan, E2)
    ensures SagaSeen(LATE_WORLD, "late", CheckpointSaga, ROOT, "checkpoint-lease", ReadbackVerified)
    ensures LATE_WORLD.t.sagas["late"].fingerprint == FingerprintOf(Late(4).plan)
  {
    KeysDiffer();
    assert InLog(LATE_WORLD.hazel, E2);
  }

  lemma LateInv()
    ensures CallInv(LATE_WORLD, Drive(Late(4)))
  {
    hide Seen, SagaSeen, Verified;
    LateSeen();
    LateAdopted();
  }

  /** The row after the commit. */
  ghost predicate Overwritten(w: World) {
    ROOT in w.t.bindings && w.t.bindings[ROOT].checkpointVersion == 2 && Lead(w, w.t.bindings[ROOT]) == 2
  }

  lemma LateCommits()
    ensures Transition(LATE_WORLD.t, CheckpointArgs(Late(7).plan, E2)).Ok?
    ensures Overwritten(Step(LATE_WORLD, Drive(Late(7))).0)
  {
    hide InstanceTables.Lookup;
    Journaled();
    assert Checkpointed in Allowed(Checkpointed);
  }

  /**
   Quoting version 7, the call commits checkpoint two over checkpoint four, and
   Hazel leads by two (CheckpointExtendsExactlyWhen).  Quoting the version it
   read, it keeps the invariant of calls.
   */
  lemma FutureVersionLosesCheckpoints()
    ensures Inv(LATE_WORLD) && CallInv(LATE_WORLD, Drive(Late(4)))
    ensures Lead(LATE_WORLD, LATE_WORLD.t.bindings[ROOT]) == 0
    ensures Overwritten(Step(LATE_WORLD, Drive(Late(7))).0)
  {
    hide Inv, CallInv, Step, Overwritten;
    LateWorldOk();
    LateInv();
    LateCommits();
  }
}
