/**
 Concrete states in which a call does what one would not expect of it; the
 lemmas that say exactly when are named at each of them.
 */
module InstanceWitnesses {
  import opened Prelude
  import opened InstanceContracts
  import opened InstanceTables
  import opened InstanceEffects
  import opened InstanceProtocol
  import opened InstanceChain
  import opened InstanceInvariant
  import opened InstanceCalls
  import opened InstanceDriveSteps
  import opened InstanceRuns
  import opened InstanceProperties
  import opened InstanceSettlement
  import opened InstanceFinish
  import opened InstanceReplacing
  import opened InstanceConvergence
  import opened InstanceViews
  import opened InstanceProofSteps
  import opened InstanceAlone

  const LINE: Lineage := Lineage("org", "mission", "ocs")
  const PROFILE: Profile := Profile("1", "authority", "state", "memory")
  const REQUEST: Request := Request(LINE, "lease", "key", None, "details")
  const ROOT: BindingId := BindingOf(REQUEST)
  const BOOT: Bootstrap := Bootstrap(ROOT, 1, None, 0, None, PreparedUnverified, 0)

  /** Hazel after the preparation and three checkpoints. */
  const E1: HazelEvent := HazelEvent(LINE, 1, None, PreparePayload(ROOT, 1, BOOT, PreparedUnverified), PrepareTrace)
  const E2: HazelEvent := HazelEvent(LINE, 2, Some(Sha(E1)), CheckpointPayload(ROOT, 1, "a"), CheckpointTrace)
  const E3: HazelEvent := HazelEvent(LINE, 3, Some(Sha(E2)), CheckpointPayload(ROOT, 1, "b"), CheckpointTrace)
  const E4: HazelEvent := HazelEvent(LINE, 4, Some(Sha(E3)), CheckpointPayload(ROOT, 1, "c"), CheckpointTrace)

  /** The root binding at a version, with the checkpoint `e`. */
  function RootAt(status: Status, version: nat, e: HazelEvent): Binding {
    Binding(ROOT, LINE, PROFILE, REQUEST, OperationallyBoundL1, "lease", "authority", 1, Some("platform"), BOOT,
            status, version, None, e.version, Some(e.payload), Some(Sha(e)), "key", 0)
  }

  // ---------------------------------------------------------------- a replacement under way

  const ROOT_ROW: Binding := RootAt(Checkpointed, 5, E2)
  const AGAIN: Request := Request(LINE, "lease-2", "key-2", Some(Sha(E2)), "details")
  const NEXT_ROW: Binding := SuccessorBinding(ROOT_ROW, AGAIN, "authority", 1)
  const NEXT: BindingId := BindingOf(AGAIN)
  const ROWS: map<BindingId, Binding> := map[ROOT := ROOT_ROW, NEXT := NEXT_ROW]

  const AUTHORITY: Request := Request(LINE, "checkpoint-lease", "save", None, "details")
  const SAVING: Fingerprint := CheckpointFingerprint(E2.payload, AUTHORITY)
  const REPLACE: Saga :=
    Saga(ROOT, ReplacementSaga, ReplacementFingerprint(AGAIN, ROOT, ROOT_ROW.checkpoint, 2), "lease-2", LeaseReserved)

  /** The checkpoint's saga is finished, or stopped short of its lease. */
  function Sagas(closed: bool): map<Key, Saga> {
    map["checkpoint" := Saga(ROOT, CheckpointSaga, SAVING, "checkpoint-lease", if closed then LeaseFinalized else LocalCommitted),
        "replace" := REPLACE]
  }

  const NO_CHANGE: Change := Change(None, None, None, None, None)

  /** The life of the root binding so far. */
  const LIFE: seq<JournalEvent> := [
    JournalEvent(ROOT, InstancePrepared, None, Prepared, 1, "key:prepared", PreparedBody(PROFILE)),
    JournalEvent(ROOT, InstancePersisted, Some(Prepared), Persisted, 2, "key:hazel", TransitionBody(HazelNote(Sha(E1), E1.payload), NO_CHANGE)),
    JournalEvent(ROOT, PlatformAttached, Some(Persisted), Bound, 3, "attach", TransitionBody(TaskNote("work"), NO_CHANGE)),
    JournalEvent(ROOT, BootstrapAcknowledged, Some(Bound), Active, 4, "acknowledge", TransitionBody(AckNote(1, BOOT), NO_CHANGE)),
    JournalEvent(ROOT, InstanceCheckpointed, Some(Active), Checkpointed, 5, "checkpoint",
                 TransitionBody(CheckpointNote(2, Sha(E2), SAVING), NO_CHANGE))]

  const JOURNAL: seq<JournalEvent> := LIFE + [PreparedEvent(NEXT_ROW)]

  function UsedBy(action: LeaseAction, key: Key, use: ActionId): Lease {
    Lease(action, "authority", true, 1, 1, LeaseConsumed, true, map[key := use])
  }

  function LeasesUsed(closed: bool): Leases {
    map["lease" := UsedBy(BindAction, "key", BindUse(ROOT)),
        "lease-2" := UsedBy(BindAction, "key-2", BindUse(NEXT)),
        "checkpoint-lease" :=
          UsedBy(CheckpointAction, "checkpoint", CheckpointUse(ROOT, 2)).(state := if closed then LeaseReleased else LeaseConsumed)]
  }

  /** The successor has just been created; Hazel holds `log`. */
  function Replacing(log: seq<HazelEvent>, closed: bool): World {
    World(map["ocs" := PROFILE], Tables(ROWS, JOURNAL, Sagas(closed), map[ROOT := "replace"]), map[LINE := log], LeasesUsed(closed))
  }

  const JOB: Job := Job(ROOT_ROW, NEXT_ROW, "replace", E2.payload)

  lemma RowsDiffer()
    ensures ROOT != NEXT && ROOT_ROW.id == ROOT && NEXT_ROW.id == NEXT
    ensures ROWS[ROOT] == ROOT_ROW && ROWS[NEXT] == NEXT_ROW
  {
    assert |"key"| != |"key-2"|;
  }

  lemma RowsWitness()
    ensures Rows(ROWS) && UniqueKeys(ROWS) && UniqueGenerations(ROWS)
  {
    RowsDiffer();
    assert |"key"| != |"key-2"|;
    assert RowOk(ROOT, ROOT_ROW) && RowOk(NEXT, NEXT_ROW);
  }

  lemma LinksWitness()
    ensures Linked(ROWS) && Continued(ROWS)
  {
    RowsDiffer();
    assert LinkOk(ROWS, ROOT_ROW) && LinkOk(ROWS, NEXT_ROW);
    assert ActiveExists(ROWS, LINE);
  }

  lemma ChainWitness()
    ensures Chain(ROWS)
  {
    hide Rows, UniqueKeys, UniqueGenerations, Linked, Continued;
    RowsWitness();
    LinksWitness();
  }

  lemma HazelWitness(log: seq<HazelEvent>)
    requires log == [E1, E2] || log == [E1, E2, E3]
    ensures HazelOk(ROWS, map[LINE := log])
  {
    hide RowOk, LinkOk;
    RowsDiffer();
    assert LastHash(log[..0]) == None;
    assert log[..1] == [E1] && LastHash(log[..1]) == Some(Sha(E1));
    assert log[..2] == [E1, E2] && LastHash(log[..2]) == Some(Sha(E2));
    assert LogOk(LINE, log);
    assert forall i :: 0 <= i < |log| ==> NamesOk(ROWS, LINE, i, log[i]);
    assert BackedOk(ROOT_ROW, log) && BackedOk(NEXT_ROW, log);
  }

  lemma {:induction false} OneHistory(journal: seq<JournalEvent>, id: BindingId)
    requires forall e :: e in journal ==> e.binding == id
    ensures History(journal, id) == journal
    ensures forall other :: other != id ==> History(journal, other) == []
  {
    if journal != [] {
      assert journal == DropLast(journal) + [Last(journal)];
      OneHistory(DropLast(journal), id);
    }
  }

  lemma RootHistory()
    ensures HistoryOk(ROOT_ROW, LIFE)
  {
    assert EntryOk(LIFE, 0, false) && EntryOk(LIFE, 1, false) && EntryOk(LIFE, 2, false);
    assert EntryOk(LIFE, 3, false) && EntryOk(LIFE, 4, false);
  }

  lemma NextHistory()
    ensures HistoryOk(NEXT_ROW, [PreparedEvent(NEXT_ROW)])
  {
  }

  lemma Histories()
    ensures History(JOURNAL, ROOT) == LIFE && History(JOURNAL, NEXT) == [PreparedEvent(NEXT_ROW)]
  {
    RowsDiffer();
    OneHistory(LIFE, ROOT);
    HistoryAppend(LIFE, PreparedEvent(NEXT_ROW), ROOT);
    HistoryAppend(LIFE, PreparedEvent(NEXT_ROW), NEXT);
  }

  lemma JournalNames()
    ensures forall i :: 0 <= i < |JOURNAL| ==> JOURNAL[i].binding in ROWS && JOURNAL[i].kind != InstanceReplaced
  {
    RowsDiffer();
  }

  lemma JournalWitness()
    ensures JournalOk(ROWS, JOURNAL)
  {
    hide History, HistoryOk, PreparedEvent, SuccessorBinding, RootAt;
    RowsDiffer();
    RootHistory();
    NextHistory();
    Histories();
    JournalNames();
  }

  lemma LeasesWitness(closed: bool)
    ensures LeasesOk(LeasesUsed(closed))
  {
  }

  lemma KeysFound()
    ensures InstanceTables.Lookup(JOURNAL, "replace").None? && InstanceTables.Lookup(JOURNAL, "replace:successor").None?
    ensures InstanceTables.Lookup(JOURNAL, "checkpoint") == Some(LIFE[4])
  {
    var last := PreparedEvent(NEXT_ROW);
    assert |last.key| == 14;
    LookupAppend(LIFE, last, "replace");
    LookupAppend(LIFE, last, "replace:successor");
    LookupAppend(LIFE, last, "checkpoint");
    assert forall e :: e in LIFE ==> |e.key| !in {7, 17};
    NotFound(LIFE, "replace");
    NotFound(LIFE, "replace:successor");
    assert Last(LIFE) == LIFE[4];
  }

  lemma {:induction false} NotFound(journal: seq<JournalEvent>, key: Key)
    requires forall e :: e in journal ==> |e.key| != |key|
    ensures InstanceTables.Lookup(journal, key).None?
  {
    if journal != [] {
      assert journal == DropLast(journal) + [Last(journal)];
      NotFound(DropLast(journal), key);
    }
  }

  lemma CheckpointSagaWitness(log: seq<HazelEvent>, closed: bool)
    requires log == [E1, E2] || log == [E1, E2, E3]
    ensures SagaOk(Replacing(log, closed), "checkpoint", Sagas(closed)["checkpoint"])
  {
    hide InstanceTables.Lookup, SuccessorBinding;
    RowsDiffer();
    KeysFound();
    assert |"checkpoint"| != |"replace"| && |"checkpoint-lease"| != |"lease"| && |"checkpoint-lease"| != |"lease-2"|;
    assert InLog(map[LINE := log], E2);
    assert Written(map[LINE := log], LINE, E2.payload);
  }

  lemma ReplacementSagaWitness(log: seq<HazelEvent>, closed: bool)
    ensures SagaOk(Replacing(log, closed), "replace", Sagas(closed)["replace"])
  {
    hide InstanceTables.Lookup, SuccessorBinding, Written;
    RowsDiffer();
    assert |"checkpoint"| != |"replace"| && |"lease"| != |"lease-2"| && |"checkpoint-lease"| != |"lease-2"|;
  }

  lemma RecentWitness(log: seq<HazelEvent>, closed: bool)
    ensures RecentOk(Replacing(log, closed).t)
  {
    hide SuccessorBinding;
    assert |"checkpoint"| != |"replace"|;
  }

  lemma DrivenWitness(log: seq<HazelEvent>, closed: bool)
    ensures Driven(Replacing(log, closed).t)
  {
    hide SuccessorBinding;
    assert |"checkpoint"| != |"replace"|;
    assert DrivenBySaga(Sagas(closed), LIFE[4]);
  }

  lemma SagasWitness(log: seq<HazelEvent>, closed: bool)
    requires log == [E1, E2] || log == [E1, E2, E3]
    ensures SagasOk(Replacing(log, closed)) && RecentOk(Replacing(log, closed).t) && Driven(Replacing(log, closed).t)
  {
    hide SagaOk, RecentOk, Driven, SuccessorBinding, RootAt;
    CheckpointSagaWitness(log, closed);
    ReplacementSagaWitness(log, closed);
    RecentWitness(log, closed);
    DrivenWitness(log, closed);
    assert |"checkpoint"| != |"replace"|;
    assert Sagas(closed).Keys == {"checkpoint", "replace"};
  }

  lemma ReplacingIsOk(log: seq<HazelEvent>, closed: bool)
    requires log == [E1, E2] || log == [E1, E2, E3]
    ensures PairReady(Replacing(log, closed), JOB) && SagaReady(Replacing(log, closed), JOB) && LeaseReady(Replacing(log, closed), JOB)
  {
    hide Chain, HazelOk, JournalOk, LeasesOk, SagasOk, RecentOk, Driven;
    RowsDiffer();
    ChainWitness();
    HazelWitness(log);
    JournalWitness();
    LeasesWitness(closed);
    SagasWitness(log, closed);
    KeysFound();
    assert |"checkpoint"| != |"replace"| && |"lease"| != |"lease-2"| && |"lease"| != |"checkpoint-lease"| && |"lease-2"| != |"checkpoint-lease"|;
    assert |"replace" + ":successor"| == 17;
    assert "replace" + ":successor" == "replace:successor";
  }

  /** A replacement that has just created its successor: where ReplacementConverges starts. */
  lemma ConvergenceStarts(closed: bool)
    ensures JobOk(Replacing([E1, E2], closed), JOB)
  {
    hide PairReady, SagaReady, LeaseReady;
    ReplacingIsOk([E1, E2], closed);
  }

  lemma ReplacingInv(log: seq<HazelEvent>, closed: bool)
    requires log == [E1, E2] || log == [E1, E2, E3]
    ensures Inv(Replacing(log, closed))
  {
    hide Inv, SagaReady, LeaseReady, RowsReady, LocalIdentity;
    ReplacingIsOk(log, closed);
  }

  // ---------------------------------------------------------------- EFFECT_APPLIED without the effect

  /**
   With an uncommitted checkpoint in Hazel recovery gives up, and the saga is
   EFFECT_APPLIED although Hazel holds no replacement (BackedByStep).
   */
  lemma OvertakenSagaOverstates()
    ensures Inv(Replacing([E1, E2, E3], true))
    ensures Finish(Replacing([E1, E2, E3], true), RecoverEntry(JOB)).1 == Raised(ReadbackMismatch)
    ensures Overstates(Finish(Replacing([E1, E2, E3], true), RecoverEntry(JOB)).0)
  {
    hide Inv, SagaReady, LeaseReady, Finish;
    var w := Replacing([E1, E2, E3], true);
    ReplacingIsOk([E1, E2, E3], true);
    assert w.hazel[LINE] == [E1, E2, E3];
    assert Last(w.hazel[LINE]) == E3;
    OvertakenRecoveryGivesUp(w, JOB);
  }

  ghost predicate Overstates(w: World) {
    "replace" in w.t.sagas && w.t.sagas["replace"].state == EffectApplied && !ReplacementWritten(w.hazel, LINE, ROOT)
  }

  // ---------------------------------------------------------------- a late acknowledgement

  const BOUND_ROW: Binding := RootAt(Bound, 3, E1).(maturity := PreparedUnverified)

  function LateAck(expected: nat): Ack {
    Ack(ROOT, "platform", 1, BOOT, true, "ack", expected)
  }

  lemma BoundSeen()
    ensures Seen(Replacing([E1, E2], true), BOUND_ROW)
  {
    RowsDiffer();
    assert InLog(Replacing([E1, E2], true).hazel, E1);
  }

  lemma AckUnused()
    ensures InstanceTables.Lookup(JOURNAL, "ack").None?
  {
    LookupAppend(LIFE, PreparedEvent(NEXT_ROW), "ack");
    assert |PreparedEvent(NEXT_ROW).key| == 14;
    NotFound(LIFE, "ack");
  }

  /**
   An acknowledgement that read the row BOUND, and quotes a later version, makes
   a CHECKPOINTED row ACTIVE under a successor that waits for it
   (AckActivatesExactlyWhen).  Quoting the version it read, it keeps the invariant of calls.
   */
  lemma LateAckReopens()
    ensures var w := Replacing([E1, E2], true);
            && Inv(w) && CallInv(w, Bridge(AckCommit(LateAck(3), BOUND_ROW)))
            && w.t.bindings[ROOT].status == Checkpointed && w.t.bindings[NEXT].status == Prepared
            && w.t.bindings[NEXT].predecessor == Some(ROOT)
            && Step(w, Bridge(AckCommit(LateAck(5), BOUND_ROW))).0.t.bindings
               == w.t.bindings[ROOT := ROOT_ROW.(status := Active, version := 6)]
  {
    hide Inv, Seen;
    RowsDiffer();
    ReplacingInv([E1, E2], true);
    BoundSeen();
    AckUnused();
    assert Active in Allowed(Checkpointed);
  }

  // ---------------------------------------------------------------- the world after the replacement

  const CARRY_ON: Pc := AfterCreate(JOB, 5)

  lemma CarryOnInv(closed: bool)
    ensures CallInv(Replacing([E1, E2], closed), CARRY_ON)
  {
    hide Inv, HazelOk, RowLater;
    RowsDiffer();
    var w := Replacing([E1, E2], closed);
    ReplacingInv([E1, E2], closed);
    SeenRow(w, ROOT);
    SeenRow(w, NEXT);
    assert |"checkpoint"| != |"replace"|;
    PlanWitness(w);
  }

  lemma PlanWitness(w: World)
    requires Seen(w, ROOT_ROW) && Seen(w, NEXT_ROW) && "replace" in w.t.sagas && w.t.sagas["replace"] == REPLACE
    ensures CallInv(w, CARRY_ON)
  {
    hide Seen;
    RowsDiffer();
  }

  /** A system in which one call is to finish the replacement, and perhaps others are in flight. */
  function Underway(closed: bool, others: seq<Pc>): System {
    System(Replacing([E1, E2], closed), [CARRY_ON] + others)
  }

  /** The world in which the replacement has ended. */
  ghost function AfterReplacement(closed: bool): World {
    Finish(Replacing([E1, E2], closed), CARRY_ON).0
  }

  lemma ReplacedIs(closed: bool)
    ensures ReplacedOnce(Replacing([E1, E2], closed), AfterReplacement(closed), JOB, ReplacementTrace)
    ensures JobReady(Replacing([E1, E2], closed), JOB)
  {
    hide JobOk, JobReady, WorldAt, Finish, ReplacedOnce, SuccessorBinding;
    var w := Replacing([E1, E2], closed);
    ConvergenceStarts(closed);
    JobIsReady(w, JOB);
    ReplaceEnds(w, JOB);
    EndIs(w, JOB, AtOnce(LeaseFinalized, true, true));
  }

  ghost predicate HasEnded(s: System, closed: bool, others: seq<Pc>) {
    SystemInv(s) && s.w == AfterReplacement(closed) && |s.calls| == 1 + |others| && s.calls[1..] == others
  }

  lemma UnderwayOk(closed: bool, others: seq<Pc>)
    requires CallsOk(Replacing([E1, E2], closed), others)
    ensures SystemInv(Underway(closed, others))
  {
    hide Inv, CallInv, Replacing;
    ReplacingInv([E1, E2], closed);
    CarryOnInv(closed);
  }

  /** Some run leads there, and keeps the invariant of the system. */
  lemma ReplacedRun(closed: bool, others: seq<Pc>) returns (hs: seq<Happening>)
    requires CallsOk(Replacing([E1, E2], closed), others)
    ensures HasEnded(Exec(Underway(closed, others), hs), closed, others)
  {
    hide SystemInv, Exec, Finish, Replacing;
    UnderwayOk(closed, others);
    hs := RunAlone(Underway(closed, others), 0);
    ExecOk(Underway(closed, others), hs);
  }

  // ---------------------------------------------------------------- a finished saga of someone else

  /** replace_instance, asked again for a replacement that is done, under the key of the checkpoint. */
  const WRONG_KEY: ReplaceCmd := ReplaceCmd(ROOT, AGAIN, "platform", 1, 5, "checkpoint", 1)

  ghost predicate WrongKey(w: World, pc: Pc) {
    && pc.Replace? && pc.replace.FinishDoneSaga? && pc.replace.cmd == WRONG_KEY
    && NEXT in w.t.bindings && pc.replace.s == w.t.bindings[NEXT]
  }

  /** The checkpoint's saga is LEASE_FINALIZED while its single-use lease is still consumed. */
  ghost predicate FinalizedUnsettled(w: World) {
    && "checkpoint" in w.t.sagas && w.t.sagas["checkpoint"].state == LeaseFinalized
    && "checkpoint-lease" in w.leases && w.leases["checkpoint-lease"].state == LeaseConsumed && w.leases["checkpoint-lease"].singleUse
  }

  lemma LeftOpen()
    ensures var w := AfterReplacement(false);
            && w.t.sagas == Sagas(false)["replace" := REPLACE.(state := LeaseFinalized)]
            && NEXT in w.t.bindings && w.t.bindings[NEXT].predecessor == Some(ROOT) && w.t.bindings[NEXT].leaseId == "lease-2"
            && LeaseSettled(w, "lease-2")
  {
    hide Finish, JobReady, IsReplacedRow, IsPersistedRow, Settled;
    RowsDiffer();
    ReplacedIs(false);
    assert |"checkpoint"| != |"replace"|;
  }

  /** Finishing the replacement settles its own lease only. */
  lemma CheckpointLeaseStays()
    ensures var w := AfterReplacement(false);
            "checkpoint-lease" in w.leases && w.leases["checkpoint-lease"] == LeasesUsed(false)["checkpoint-lease"]
  {
    hide JobOk, JobReady, Finish, ReplacedOnce, BindingsAt, JournalAt, LogAt;
    RowsDiffer();
    var w := Replacing([E1, E2], false);
    ConvergenceStarts(false);
    JobIsReady(w, JOB);
    ReplaceEnds(w, JOB);
    assert |"checkpoint-lease"| != |"lease-2"| && |"checkpoint-lease"| != |"lease"|;
  }

  /**
   A replay of replace_instance that is given the key of someone else's saga
   marks that saga LEASE_FINALIZED with its single-use lease still consumed
   (SettledByStep).  A run leads to the state before, and all is settled there.
   */
  lemma ForeignSagaFinalized() returns (hs: seq<Happening>, pc: Pc)
    ensures HasEnded(Exec(Underway(false, []), hs), false, [])
    ensures var w := AfterReplacement(false);
            WrongKey(w, pc) && Inv(w) && CallInv(w, pc) && SagasSettled(w) && Foreign(w, pc) && FinalizedUnsettled(Step(w, pc).0)
  {
    hide Inv, Finish, Exec, SystemInv, Underway, AfterReplacement, LeaseSettled, CallInv, Foreign, SagasSettled, FinalizedUnsettled, Step, HasEnded;
    var w := AfterReplacement(false);
    hs := ReplacedRun(false, []);
    EndedInv(Exec(Underway(false, []), hs), false, []);
    LeftOpen();
    CheckpointLeaseStays();
    pc := Replace(FinishDoneSaga(WRONG_KEY, w.t.bindings[NEXT]));
    WrongKeyInv(w, pc);
    ForeignIn(w, pc);
  }

  lemma WrongKeyInv(w: World, pc: Pc)
    requires Inv(w) && WrongKey(w, pc) && w.t.bindings[NEXT].predecessor == Some(ROOT)
    requires w.t.bindings[NEXT].leaseId == "lease-2" && LeaseSettled(w, "lease-2")
    ensures CallInv(w, pc)
  {
    hide Inv, Seen, LeaseSettled;
    SeenRow(w, NEXT);
  }

  lemma EndedInv(s: System, closed: bool, others: seq<Pc>)
    requires HasEnded(s, closed, others)
    ensures Inv(AfterReplacement(closed))
  {
    hide Inv, CallsOk, AfterReplacement;
  }

  lemma ForeignIn(w: World, pc: Pc)
    requires WrongKey(w, pc)
    requires w.t.sagas == Sagas(false)["replace" := REPLACE.(state := LeaseFinalized)] && LeaseSettled(w, "lease-2")
    requires "checkpoint-lease" in w.leases && w.leases["checkpoint-lease"] == LeasesUsed(false)["checkpoint-lease"]
    ensures SagasSettled(w) && Foreign(w, pc) && FinalizedUnsettled(Step(w, pc).0)
  {
    assert |"checkpoint"| != |"replace"| && |"checkpoint-lease"| != |"lease-2"| && |"checkpoint-lease"| != |"lease"|;
  }

  // ---------------------------------------------------------------- two keys for one replacement

  /** The same replacement request under a second key, about to begin its saga. */
  const RIVAL: Pc := Replace(BeginReplacement(ReplaceCmd(ROOT, AGAIN, "platform", 1, 5, "rival", 1), ROOT_ROW, E2))

  lemma RivalInv()
    ensures CallInv(Replacing([E1, E2], true), RIVAL)
  {
    hide Inv, HazelOk;
    RowsDiffer();
    var w := Replacing([E1, E2], true);
    ReplacingInv([E1, E2], true);
    SeenRow(w, ROOT);
    assert |"lease-2"| != |"lease"| && |"lease-2"| != |"checkpoint-lease"|;
  }

  lemma RivalsOk()
    ensures CallsOk(Replacing([E1, E2], true), [RIVAL])
  {
    hide CallInv, Replacing;
    RivalInv();
  }

  lemma ProvenThere()
    requires Inv(AfterReplacement(true))
    ensures Proven(AfterReplacement(true).t, NEXT)
  {
    hide Inv, Finish, Replacing, ReplacedOnce, JobReady, Proven;
    RowsDiffer();
    ReplacedIs(true);
    ReplacementIsProven(Replacing([E1, E2], true), AfterReplacement(true), JOB, ReplacementTrace);
  }

  lemma RivalUnknown()
    ensures var t := AfterReplacement(true).t;
            "rival" !in t.sagas && ROOT in t.bindings && NEXT in t.bindings && t.bindings[NEXT].predecessor == Some(ROOT)
  {
    hide Finish, JobReady, IsReplacedRow, IsPersistedRow, Settled;
    RowsDiffer();
    ReplacedIs(true);
    assert |"rival"| != |"checkpoint"| && |"rival"| != |"replace"|;
  }

  lemma RivalHides(w: World)
    requires "rival" !in w.t.sagas && ROOT in w.t.bindings && NEXT in w.t.bindings && w.t.bindings[NEXT].predecessor == Some(ROOT)
    ensures Hides(w, RIVAL, ROOT) && Step(w, RIVAL).0.t.bindings == w.t.bindings && !SagaFinalized(Step(w, RIVAL).0.t, ROOT)
  {
  }

  /** A proof of NEXT that the next step of RIVAL hides, although no checkpoint has been taken. */
  ghost predicate ProofHidden(s: System) {
    && SystemInv(s) && 1 < |s.calls| && s.calls[1] == RIVAL
    && Proven(s.w.t, NEXT) && Hides(s.w, RIVAL, ROOT)
    && var w' := After(s, Advance(1)).w;
    w'.t.bindings == s.w.t.bindings && !Proven(w'.t, NEXT)
  }

  /**
   Two calls for one replacement request under two keys: one finishes it, the
   view reports the recovery as proven, and then the other begins its saga
   (ProofByStep).
   */
  lemma RivalHidesProof() returns (hs: seq<Happening>)
    ensures SystemInv(Underway(true, [RIVAL])) && ProofHidden(Exec(Underway(true, [RIVAL]), hs))
  {
    hide SystemInv, Exec, Underway, Replacing, AfterReplacement, ProofHidden, Proven;
    RivalsOk();
    UnderwayOk(true, [RIVAL]);
    hs := ReplacedRun(true, [RIVAL]);
    var s := Exec(Underway(true, [RIVAL]), hs);
    EndedInv(s, true, [RIVAL]);
    ProvenThere();
    RivalUnknown();
    SecondCall(s);
    HiddenIn(s);
  }

  lemma SecondCall(s: System)
    requires HasEnded(s, true, [RIVAL])
    ensures SystemInv(s) && s.w == AfterReplacement(true) && 1 < |s.calls| && s.calls[1] == RIVAL
  {
    hide SystemInv, AfterReplacement;
    assert s.calls[1..][0] == s.calls[1];
  }

  lemma HiddenIn(s: System)
    requires SystemInv(s) && 1 < |s.calls| && s.calls[1] == RIVAL && Proven(s.w.t, NEXT)
    requires "rival" !in s.w.t.sagas && ROOT in s.w.t.bindings && NEXT in s.w.t.bindings
    requires s.w.t.bindings[NEXT].predecessor == Some(ROOT)
    ensures ProofHidden(s)
  {
    hide SystemInv, Hides, Step, SagaFinalized, Proven;
    RootId(s);
    RivalHides(s.w);
    NotFinalizedNotProven(Step(s.w, RIVAL).0.t);
  }

  lemma RootId(s: System)
    requires SystemInv(s) && ROOT in s.w.t.bindings
    ensures s.w.t.bindings[ROOT].id == ROOT
  {
    hide Inv, CallsOk;
    SeenRow(s.w, ROOT);
  }

  lemma NotFinalizedNotProven(t: Tables)
    requires ROOT in t.bindings && NEXT in t.bindings && t.bindings[NEXT].predecessor == Some(ROOT) && t.bindings[ROOT].id == ROOT
    requires !SagaFinalized(t, ROOT)
    ensures !Proven(t, NEXT)
  {
  }
}
