/**
 The Command event log, its cursor feed and its projections:
 app/command/event_store.py, realtime.py and projections.py.
 */
module EventLog {
  import opened Prelude

  datatype Freshness = Live | Recent | Stale | Unknown

  datatype Value = Text(text: string) | Refs(refs: seq<string>) | Absent

  /** The parts of a payload that the store and the projector look at. */
  datatype Payload = Payload(
    projection: Option<string>, data: map<string, string>, targetOcs: Option<string>, claimState: Option<string>)

  datatype CommandEvent = CommandEvent(
    eventId: string, eventType: string, schemaVersion: string, occurredAt: string, zoned: bool,
    source: string, sourceVersion: string, institution: string,
    ocs: Option<string>, project: Option<string>, run: Option<string>,
    causation: Option<string>, correlation: Option<string>,
    sequence: int, key: string, freshness: Freshness, evidence: seq<string>, payload: Payload)

  datatype Error = Invalid | IdempotencyConflict | SequenceHold | IntegrityRejected | CursorInvalid | CursorAhead

  datatype Result<+T> = Ok(value: T) | Err(error: Error)

  datatype Stream = Stream(source: string, institution: string, ocs: Option<string>, run: Option<string>)

  function StreamOf(e: CommandEvent): Stream {
    Stream(e.source, e.institution, e.ocs, e.run)
  }

  // ---------------------------------------------------------------- append

  predicate Blank(s: string) {
    forall i :: 0 <= i < |s| ==> s[i] in {' ', '\t', '\n', '\r'}
  }

  function Fold(c: char): char {
    if 'A' <= c <= 'Z' then c - 'A' + 'a' else c
  }

  function CaseFold(s: string): string {
    if s == "" then "" else [Fold(s[0])] + CaseFold(s[1..])
  }

  /** validate. */
  predicate Valid(e: CommandEvent) {
    && !Blank(e.eventId) && !Blank(e.eventType) && !Blank(e.schemaVersion) && !Blank(e.source) && !Blank(e.sourceVersion)
    && !Blank(e.institution) && !Blank(e.key)
    && e.sequence >= 1
    && e.zoned
    && CaseFold(e.source) !in {"unknown", "", "unspecified"}
    && (e.payload.targetOcs.Some? ==> e.payload.targetOcs == e.ocs)
    && (e.payload.claimState.Some? && e.payload.claimState.value in {"verified", "assured"} ==> e.evidence != [])
  }

  /** The row stored under an idempotency key. */
  function ByKey(log: seq<CommandEvent>, key: string): Option<CommandEvent> {
    if log == [] then None
    else if Last(log).key == key then Some(Last(log))
    else ByKey(DropLast(log), key)
  }

  predicate HasEventId(log: seq<CommandEvent>, id: string) {
    exists e :: e in log && e.eventId == id
  }

  /** MAX(sequence) over the stream, 0 when it is empty. */
  function LastSequence(log: seq<CommandEvent>, s: Stream): int {
    if log == [] then 0
    else
      var before := LastSequence(DropLast(log), s);
      if StreamOf(Last(log)) == s && Last(log).sequence > before then Last(log).sequence else before
  }

  /** append: whether a row was written, or why not. */
  function Append(log: seq<CommandEvent>, e: CommandEvent): Result<(seq<CommandEvent>, bool)> {
    if !Valid(e) then Err(Invalid)
    else
      var existing := ByKey(log, e.key);
      if existing.Some? then
        if existing.value.eventId != e.eventId then Err(IdempotencyConflict) else Ok((log, false))
      else if e.sequence != LastSequence(log, StreamOf(e)) + 1 then Err(SequenceHold)
      else if HasEventId(log, e.eventId) then Err(IntegrityRejected)
      else Ok((log + [e], true))
  }

  /** The events of one stream, in append order. */
  function StreamEvents(log: seq<CommandEvent>, s: Stream): seq<CommandEvent> {
    if log == [] then []
    else if StreamOf(Last(log)) == s then StreamEvents(DropLast(log), s) + [Last(log)]
    else StreamEvents(DropLast(log), s)
  }

  /** Sequences 1..k in append order. */
  predicate Numbered(events: seq<CommandEvent>) {
    forall i :: 0 <= i < |events| ==> events[i].sequence == i + 1
  }

  ghost predicate WellNumbered(log: seq<CommandEvent>) {
    forall s :: Numbered(StreamEvents(log, s))
  }

  predicate UniqueKeys(log: seq<CommandEvent>) {
    forall i, j :: 0 <= i < j < |log| ==> log[i].key != log[j].key && log[i].eventId != log[j].eventId
  }

  lemma {:induction false} LastIsLength(log: seq<CommandEvent>, s: Stream)
    requires Numbered(StreamEvents(log, s))
    ensures LastSequence(log, s) == |StreamEvents(log, s)|
  {
    if log != [] {
      var events := StreamEvents(DropLast(log), s);
      if StreamOf(Last(log)) == s {
        var all := events + [Last(log)];
        assert all[|events|].sequence == |events| + 1;
        assert forall i :: 0 <= i < |events| ==> all[i] == events[i];
      }
      LastIsLength(DropLast(log), s);
    }
  }

  lemma {:induction false} ByKeyIn(log: seq<CommandEvent>, key: string)
    ensures ByKey(log, key).None? <==> forall i :: 0 <= i < |log| ==> log[i].key != key
    ensures ByKey(log, key).Some? ==> ByKey(log, key).value in log && ByKey(log, key).value.key == key
  {
    if log != [] {
      ByKeyIn(DropLast(log), key);
      assert log == DropLast(log) + [Last(log)];
    }
  }

  /** Appending keeps every stream numbered 1..k and every key and id unique. */
  lemma AppendKeeps(log: seq<CommandEvent>, e: CommandEvent)
    requires WellNumbered(log) && UniqueKeys(log) && Append(log, e).Ok?
    ensures var r := Append(log, e).value;
            WellNumbered(r.0) && UniqueKeys(r.0) && log <= r.0 && |r.0| == |log| + (if r.1 then 1 else 0)
  {
    var r := Append(log, e).value;
    if r.1 {
      ByKeyIn(log, e.key);
      DropLastAppend(log, e);
      LastIsLength(log, StreamOf(e));
      forall s ensures Numbered(StreamEvents(r.0, s)) {
        assert Numbered(StreamEvents(log, s));
      }
      forall i | 0 <= i < |log| ensures log[i].eventId != e.eventId {
        assert log[i] in log;
      }
    }
  }

  /** Appending an accepted event again, at any later time, changes nothing. */
  lemma AppendTwice(log: seq<CommandEvent>, e: CommandEvent, later: seq<CommandEvent>)
    requires UniqueKeys(later) && Append(log, e).Ok? && Append(log, e).value.0 <= later
    ensures Append(later, e) == Ok((later, false))
  {
    var now := Append(log, e).value.0;
    ByKeyIn(log, e.key);
    ByKeyIn(later, e.key);
    var i :| 0 <= i < |now| && now[i].key == e.key && now[i].eventId == e.eventId;
    assert later[i] == now[i];
    var found := ByKey(later, e.key).value;
    var j :| 0 <= j < |later| && later[j] == found;
  }

  // ---------------------------------------------------------------- projections

  /** A dictionary of the projection. */
  datatype Entry = Entry(fields: map<string, Value>)

  datatype EventRow = EventRow(common: map<string, Value>, payload: Payload)

  datatype Projection = Projection(
    institution: Entry, ocs: map<string, Entry>, operations: map<string, Entry>, gates: map<string, Entry>,
    events: seq<EventRow>, evidence: map<string, Entry>, health: Entry, maps: map<string, Entry>)

  const NO_HEALTH: Entry := Entry(map["status" := Text("unknown"), "freshness" := Text("unknown"), "evidence_refs" := Refs([])])

  const BLANK: Projection := Projection(Entry(map[]), map[], map[], map[], [], map[], NO_HEALTH, map[])

  function FreshnessText(f: Freshness): string {
    match f
    case Live => "live"
    case Recent => "recent"
    case Stale => "stale"
    case Unknown => "unknown"
  }

  function Optional(o: Option<string>): Value {
    if o.Some? then Text(o.value) else Absent
  }

  function Common(e: CommandEvent): map<string, Value> {
    map["event_id" := Text(e.eventId), "event_type" := Text(e.eventType), "source" := Text(e.source),
        "source_version" := Text(e.sourceVersion), "freshness" := Text(FreshnessText(e.freshness)),
        "evidence_refs" := Refs(e.evidence), "occurred_at" := Text(e.occurredAt),
        "correlation_id" := Optional(e.correlation), "causation_id" := Optional(e.causation)]
  }

  function Texts(data: map<string, string>): map<string, Value> {
    map k | k in data :: Text(data[k])
  }

  /** The fields of the event, overlaid by its data. */
  function EntryOf(e: CommandEvent): Entry {
    Entry(Common(e) + Texts(e.payload.data))
  }

  function WithStatus(e: CommandEvent, status: string): Entry {
    Entry(EntryOf(e).fields["status" := Text(status)])
  }

  function Get(data: map<string, string>, key: string, default: string): string {
    if key in data then data[key] else default
  }

  /** run_id or project_id or event_id: an empty string counts as missing. */
  function OperationKey(e: CommandEvent): string {
    if e.run.Some? && e.run.value != "" then e.run.value
    else if e.project.Some? && e.project.value != "" then e.project.value
    else e.eventId
  }

  /** A status other than unknown needs evidence. */
  function HealthStatus(e: CommandEvent): string {
    var status := Get(e.payload.data, "status", "unknown");
    if e.evidence == [] && status != "unknown" then "unknown" else status
  }

  datatype Kind = InstitutionKind | OcsKind | OperationKind | GateKind | EvidenceKind | HealthKind | MapKind | NoKind

  /** The projection that a payload names. */
  function KindOf(e: CommandEvent): Kind {
    if e.payload.projection.None? then NoKind
    else
      var kind := e.payload.projection.value;
      if kind == "institution" then InstitutionKind
      else if kind == "ocs" then OcsKind
      else if kind == "operation" then OperationKind
      else if kind == "gate" then GateKind
      else if kind == "evidence" || kind == "receipt" then EvidenceKind
      else if kind == "system_health" then HealthKind
      else if kind == "map" then MapKind
      else NoKind
  }

  /** apply. */
  function Apply(p: Projection, e: CommandEvent): Projection {
    var seen := p.(events := p.events + [EventRow(Common(e), e.payload)]);
    var data := e.payload.data;
    match KindOf(e)
    case InstitutionKind => seen.(institution := EntryOf(e))
    case OcsKind => if e.ocs.None? then seen else seen.(ocs := seen.ocs[e.ocs.value := EntryOf(e)])
    case OperationKind => seen.(operations := seen.operations[OperationKey(e) := EntryOf(e)])
    case GateKind => seen.(gates := seen.gates[Get(data, "gate_id", e.eventId) := EntryOf(e)])
    case EvidenceKind => seen.(evidence := seen.evidence[Get(data, "evidence_id", e.eventId) := EntryOf(e)])
    case HealthKind => seen.(health := WithStatus(e, HealthStatus(e)))
    case MapKind => seen.(maps := seen.maps[Get(data, "map_id", e.eventId) := EntryOf(e)])
    case NoKind => seen
  }

  function ApplyAll(p: Projection, events: seq<CommandEvent>): Projection {
    if events == [] then p else Apply(ApplyAll(p, DropLast(events)), Last(events))
  }

  /** rebuild. */
  function Rebuild(log: seq<CommandEvent>): Projection {
    ApplyAll(BLANK, log)
  }

  lemma {:induction false} ApplyAllJoin(p: Projection, a: seq<CommandEvent>, b: seq<CommandEvent>)
    ensures ApplyAll(p, a + b) == ApplyAll(ApplyAll(p, a), b)
  {
    if b == [] {
      assert a + b == a;
    } else {
      ApplyAllJoin(p, a, DropLast(b));
      assert DropLast(a + b) == a + DropLast(b) && Last(a + b) == Last(b);
    }
  }

  // ---------------------------------------------------------------- the feed

  datatype Batch = Batch(events: seq<CommandEvent>, nextCursor: nat, freshness: Freshness)

  function BatchFreshness(events: seq<CommandEvent>): Freshness {
    if events == [] then Unknown
    else if exists e :: e in events && e.freshness == Stale then Stale
    else if exists e :: e in events && e.freshness == Unknown then Unknown
    else if forall e :: e in events ==> e.freshness == Live then Live
    else Recent
  }

  /** read. */
  function Read(log: seq<CommandEvent>, cursor: int, maxBatch: nat): Result<Batch>
    requires maxBatch > 0
  {
    if cursor < 0 then Err(CursorInvalid)
    else if cursor > |log| then Err(CursorAhead)
    else
      var end := if cursor + maxBatch > |log| then |log| else cursor + maxBatch;
      Ok(Batch(log[cursor..end], end, BatchFreshness(log[cursor..end])))
  }

  // ---------------------------------------------------------------- a reader and its writers

  datatype Move = Write(event: CommandEvent) | Poll

  /** A log that is written to while a reader folds the batches it polls. */
  datatype Reader = Reader(log: seq<CommandEvent>, cursor: nat, view: Projection)

  const NEW_READER: Reader := Reader([], 0, BLANK)

  function Step(r: Reader, m: Move, maxBatch: nat): Reader
    requires maxBatch > 0
  {
    match m
    case Write(e) => if Append(r.log, e).Ok? then r.(log := Append(r.log, e).value.0) else r
    case Poll =>
      (match Read(r.log, r.cursor, maxBatch)
       case Err(_) => r
       case Ok(b) => r.(cursor := b.nextCursor, view := ApplyAll(r.view, b.events)))
  }

  function Run(moves: seq<Move>, maxBatch: nat): Reader
    requires maxBatch > 0
  {
    if moves == [] then NEW_READER else Step(Run(DropLast(moves), maxBatch), Last(moves), maxBatch)
  }

  ghost predicate ReaderOk(r: Reader) {
    && WellNumbered(r.log) && UniqueKeys(r.log)
    && r.cursor <= |r.log| && r.view == Rebuild(r.log[..r.cursor])
  }

  lemma StepOk(r: Reader, m: Move, maxBatch: nat)
    requires maxBatch > 0 && ReaderOk(r)
    ensures ReaderOk(Step(r, m, maxBatch)) && r.log <= Step(r, m, maxBatch).log && r.cursor <= Step(r, m, maxBatch).cursor
  {
    hide WellNumbered, UniqueKeys, Apply, Append, BatchFreshness;
    match m
    case Write(e) =>
      if Append(r.log, e).Ok? {
        AppendKeeps(r.log, e);
        assert Append(r.log, e).value.0[..r.cursor] == r.log[..r.cursor];
      }
    case Poll =>
      var b := Read(r.log, r.cursor, maxBatch).value;
      ApplyAllJoin(BLANK, r.log[..r.cursor], b.events);
      assert r.log[..r.cursor] + b.events == r.log[..b.nextCursor];
  }

  /** However writes and polls interleave, the reader's view is the rebuild of the log up to its cursor. */
  lemma {:induction false} FeedAgreesWithRebuild(moves: seq<Move>, maxBatch: nat)
    requires maxBatch > 0
    ensures var r := Run(moves, maxBatch);
            && WellNumbered(r.log) && UniqueKeys(r.log)
            && r.cursor <= |r.log|
            && r.view == Rebuild(r.log[..r.cursor])
            && (r.cursor == |r.log| ==> r.view == Rebuild(r.log))
  {
    hide WellNumbered, UniqueKeys, Apply, Append;
    var r := Run(moves, maxBatch);
    assert r.log[..|r.log|] == r.log;
    if moves == [] {
      StartsOk();
    } else {
      FeedAgreesWithRebuild(DropLast(moves), maxBatch);
      StepOk(Run(DropLast(moves), maxBatch), Last(moves), maxBatch);
    }
  }

  lemma StartsOk()
    ensures ReaderOk(NEW_READER)
  {
    assert WellNumbered([]);
  }

  /** Enough polls catch up: each takes a whole batch or all that is left. */
  lemma {:induction false} PollsCatchUp(r: Reader, polls: nat, maxBatch: nat)
    requires maxBatch > 0 && ReaderOk(r) && r.cursor + polls >= |r.log|
    ensures Polled(r, polls, maxBatch).cursor == |r.log| && Polled(r, polls, maxBatch).view == Rebuild(r.log)
    decreases polls
  {
    hide WellNumbered, UniqueKeys, Apply, BatchFreshness;
    if polls == 0 {
      assert r.log[..|r.log|] == r.log;
    } else {
      StepOk(r, Poll, maxBatch);
      PollsCatchUp(Step(r, Poll, maxBatch), polls - 1, maxBatch);
    }
  }

  function Polled(r: Reader, polls: nat, maxBatch: nat): Reader
    requires maxBatch > 0
    decreases polls
  {
    if polls == 0 then r else Polled(Step(r, Poll, maxBatch), polls - 1, maxBatch)
  }

  // ---------------------------------------------------------------- what the projection shows

  /** The last event that projects the OCS. */
  function LastOcsEvent(log: seq<CommandEvent>, ocs: string): Option<CommandEvent> {
    if log == [] then None
    else if KindOf(Last(log)).OcsKind? && Last(log).ocs == Some(ocs) then Some(Last(log))
    else LastOcsEvent(DropLast(log), ocs)
  }

  predicate ProjectsOcs(e: CommandEvent) {
    KindOf(e).OcsKind? && e.ocs.Some?
  }

  lemma ApplyOcs(p: Projection, e: CommandEvent)
    ensures Apply(p, e).ocs == if ProjectsOcs(e) then p.ocs[e.ocs.value := EntryOf(e)] else p.ocs
  {
    hide EntryOf, OperationKey, HealthStatus, Common, KindOf, Get, WithStatus, Texts;
    match KindOf(e)
    case OcsKind =>
    case _ =>
  }

  /** An OCS shows its last event; it is shown exactly when it has one. */
  lemma {:induction false} OcsShowsLast(log: seq<CommandEvent>, ocs: string)
    ensures (ocs in Rebuild(log).ocs) <==> LastOcsEvent(log, ocs).Some?
    ensures ocs in Rebuild(log).ocs ==> Rebuild(log).ocs[ocs] == EntryOf(LastOcsEvent(log, ocs).value)
  {
    hide EntryOf, Apply, KindOf;
    if log != [] {
      OcsShowsLast(DropLast(log), ocs);
      ApplyOcs(Rebuild(DropLast(log)), Last(log));
    }
  }

  predicate ProjectsHealth(e: CommandEvent) {
    KindOf(e).HealthKind?
  }

  lemma ApplyHealth(p: Projection, e: CommandEvent)
    ensures Apply(p, e).events == p.events + [EventRow(Common(e), e.payload)]
    ensures Apply(p, e).health == if ProjectsHealth(e) then WithStatus(e, HealthStatus(e)) else p.health
  {
    hide EntryOf, OperationKey, HealthStatus, Common, KindOf, Get, WithStatus, Texts;
    match KindOf(e)
    case HealthKind =>
    case _ =>
  }

  /** Health never claims a status that no evidence backs; the event list is the whole log. */
  lemma {:induction false} HealthNeedsEvidence(log: seq<CommandEvent>)
    ensures "status" in Rebuild(log).health.fields
    ensures Rebuild(log).health.fields["status"] != Text("unknown") ==> exists e :: e in log && ProjectsHealth(e) && e.evidence != []
    ensures |Rebuild(log).events| == |log|
  {
    hide EntryOf, Apply, Common, ProjectsHealth;
    if log != [] {
      HealthNeedsEvidence(DropLast(log));
      ApplyHealth(Rebuild(DropLast(log)), Last(log));
      assert log == DropLast(log) + [Last(log)];
      if Rebuild(log).health.fields["status"] != Text("unknown") && ProjectsHealth(Last(log)) {
        assert Last(log) in log;
      }
    }
  }

  // ---------------------------------------------------------------- the objects

  class CommandEventStore {
    var rows: seq<CommandEvent>

    constructor ()
      ensures rows == []
    {
      rows := [];
    }

    method FindByKey(key: string) returns (r: Option<CommandEvent>)
      ensures r == ByKey(rows, key)
    {
      var i := |rows|;
      assert rows[..i] == rows;
      while i > 0
        invariant 0 <= i <= |rows|
        invariant ByKey(rows, key) == ByKey(rows[..i], key)
      {
        assert DropLast(rows[..i]) == rows[..i - 1];
        if rows[i - 1].key == key {
          return Some(rows[i - 1]);
        }
        i := i - 1;
      }
      return None;
    }

    method AppendEvent(e: CommandEvent) returns (r: Result<bool>)
      modifies this
      ensures match Append(old(rows), e)
              case Err(x) => r == Err(x) && rows == old(rows)
              case Ok(a) => r == Ok(a.1) && rows == a.0
    {
      if !Valid(e) {
        return Err(Invalid);
      }
      var existing := FindByKey(e.key);
      if existing.Some? {
        if existing.value.eventId != e.eventId {
          return Err(IdempotencyConflict);
        }
        return Ok(false);
      }
      var expected := LastSequence(rows, StreamOf(e)) + 1;
      if e.sequence != expected {
        return Err(SequenceHold);
      }
      if HasEventId(rows, e.eventId) {
        return Err(IntegrityRejected);
      }
      rows := rows + [e];
      return Ok(true);
    }
  }

  class CommandProjector {
    var state: Projection

    constructor ()
      ensures state == BLANK
    {
      state := BLANK;
    }

    method ApplyEvent(e: CommandEvent)
      modifies this
      ensures state == Apply(old(state), e)
    {
      state := state.(events := state.events + [EventRow(Common(e), e.payload)]);
      var data := e.payload.data;
      match KindOf(e)
      case InstitutionKind => state := state.(institution := EntryOf(e));
      case OcsKind =>
        if e.ocs.None? {
          return;
        }
        state := state.(ocs := state.ocs[e.ocs.value := EntryOf(e)]);
      case OperationKind => state := state.(operations := state.operations[OperationKey(e) := EntryOf(e)]);
      case GateKind => state := state.(gates := state.gates[Get(data, "gate_id", e.eventId) := EntryOf(e)]);
      case EvidenceKind => state := state.(evidence := state.evidence[Get(data, "evidence_id", e.eventId) := EntryOf(e)]);
      case HealthKind =>
        var status := Get(data, "status", "unknown");
        if e.evidence == [] && status != "unknown" {
          status := "unknown";
        }
        state := state.(health := WithStatus(e, status));
      case MapKind => state := state.(maps := state.maps[Get(data, "map_id", e.eventId) := EntryOf(e)]);
      case NoKind =>
    }

    method RebuildFrom(events: seq<CommandEvent>)
      modifies this
      ensures state == Rebuild(events)
    {
      state := BLANK;
      for i := 0 to |events|
        invariant state == Rebuild(events[..i])
      {
        ApplyEvent(events[i]);
        DropLastAppend(events[..i], events[i]);
        assert events[..i + 1] == events[..i] + [events[i]];
      }
      assert events[..|events|] == events;
    }
  }
}
