/**
 The recoverable fleet of app/distributed_runtime/recovery.py and the repeated
 operation of longitudinal.py: generation fencing, restart of a failed actor in
 the middle of a mission, and many such missions in a row.

 `starts` says whether a replacement worker comes up.
 */
module MissionRecovery {
  import opened Prelude
  import opened CausalMission
  import opened ConcurrentMissions

  class GenerationFenceRegistry {
    var current: map<Ocs, nat>

    constructor (generations: map<Ocs, nat>)
      ensures current == generations
    {
      current := generations;
    }

    method Advance(ocs: Ocs, oldGeneration: nat) returns (r: Result<nat>)
      requires ocs in current
      modifies this
      ensures r.Ok? <==> old(current)[ocs] == oldGeneration
      ensures r.Ok? ==> r.value == oldGeneration + 1 && current == old(current)[ocs := oldGeneration + 1]
      ensures r.Err? ==> current == old(current) && r.error == AdvanceRace
    {
      if current[ocs] != oldGeneration {
        return Err(AdvanceRace);
      }
      current := current[ocs := oldGeneration + 1];
      return Ok(current[ocs]);
    }

    /** assert_current: the gate before a commit or an effect. */
    predicate Admits(ocs: Ocs, generation: nat)
      reads this
    {
      ocs in current && current[ocs] == generation
    }
  }

  datatype Worker = Worker(instance: nat, generation: nat, alive: bool)

  datatype Recovery = Recovery(ocs: Ocs, oldInstance: nat, newInstance: nat, oldGeneration: nat, newGeneration: nat)

  datatype MissionResult = MissionResult(mission: string, trace: nat, receipts: seq<Receipt>, payload: Payload, recovery: Recovery)

  datatype Evidence = Evidence(
    staleGeneration: nat, currentGeneration: nat, staleReceipt: bool, staleCommitDenied: bool, staleEffectDenied: bool,
    currentReceipt: bool, currentCommitAllowed: bool, currentEffectAllowed: bool)

  /** The payload is what the last receipt digests. */
  predicate Linked(payload: Payload, receipts: seq<Receipt>) {
    receipts != [] ==> HashOf(payload) == Last(receipts).outputHash
  }

  class RecoverableFleet {
    const roles: Roles
    const order: seq<Ocs>
    const fence: GenerationFenceRegistry
    var generations: map<Ocs, nat>
    var workers: map<Ocs, Worker>
    var issued: nat

    /** Every actor has a binding, a worker and a fence; a fence is its binding's generation or one above it. */
    ghost predicate Valid()
      reads this, fence
    {
      && Cast(roles, order)
      && (forall o :: o in order ==> o in generations && o in workers && o in fence.current)
      && (forall o :: o in order ==> generations[o] <= fence.current[o] <= generations[o] + 1)
    }

    /** Every worker is up and carries the fenced generation. */
    ghost predicate Healthy()
      reads this, fence
    {
      && Valid()
      && (forall o :: o in order ==> fence.current[o] == generations[o] == workers[o].generation && workers[o].alive)
    }

    constructor (roles: Roles, order: seq<Ocs>, initial: map<Ocs, nat>)
      requires Cast(roles, order) && forall o :: o in order ==> o in initial
      ensures Healthy() && fresh(fence) && generations == initial && fence.current == initial
      ensures this.roles == roles && this.order == order
    {
      this.roles, this.order := roles, order;
      generations := initial;
      workers := map o | o in initial :: Worker(0, initial[o], true);
      issued := 1;
      fence := new GenerationFenceRegistry(initial);
    }

    method RestartActor(ocs: Ocs, starts: bool) returns (r: Result<Recovery>)
      requires Valid() && ocs in order
      modifies this, fence
      ensures Valid()
      ensures forall o :: o in order ==> fence.current[o] >= old(fence.current)[o]
      ensures r.Ok? <==> starts && old(fence.current)[ocs] == old(generations)[ocs]
      ensures r.Ok? ==>
                && generations == old(generations)[ocs := old(generations)[ocs] + 1]
                && fence.current == old(fence.current)[ocs := old(generations)[ocs] + 1]
                && workers.Keys == old(workers).Keys + {ocs}
                && (forall o :: o in order && o != ocs ==> workers[o] == old(workers)[o])
                && workers[ocs].generation == generations[ocs] && workers[ocs].alive
                && r.value.ocs == ocs && r.value.oldGeneration == old(generations)[ocs] && r.value.newGeneration == generations[ocs]
      ensures r.Err? ==>
                && generations == old(generations)
                && fence.current == (if old(fence.current)[ocs] == old(generations)[ocs]
                                     then old(fence.current)[ocs := old(generations)[ocs] + 1] else old(fence.current))
      ensures issued >= old(issued)
    {
      var before := workers[ocs];
      var oldGeneration := generations[ocs];
      workers := workers[ocs := before.(alive := false)];
      var advanced := fence.Advance(ocs, oldGeneration);
      if advanced.Err? {
        return Err(advanced.error);
      }
      if !starts {
        return Err(WorkerNotActive);
      }
      generations := generations[ocs := advanced.value];
      workers := workers[ocs := Worker(issued, advanced.value, true)];
      issued := issued + 1;
      return Ok(Recovery(ocs, before.instance, workers[ocs].instance, oldGeneration, advanced.value));
    }

    /** What one actor's turn comes to, restart included. */
    method ActorTurn(k: nat, failed: Ocs, starts: bool, mission: string, trace: nat, payload: Payload, receipts: seq<Receipt>)
      returns (r: Result<Receipt>, recovery: Option<Recovery>)
      requires Valid() && k < |order| && |receipts| == k
      modifies this, fence
      ensures Valid() && issued >= old(issued)
      ensures forall o :: o in order ==> fence.current[o] >= old(fence.current)[o]
      ensures old(Healthy()) && Linked(payload, receipts) && (order[k] != failed || starts) ==>
                && Healthy()
                && generations == (if order[k] == failed then old(generations)[failed := old(generations)[failed] + 1] else old(generations))
                && (order[k] != failed ==> fence.current == old(fence.current))
                && r == Turn(roles, order, generations[order[k]], mission, trace, payload, receipts, true)
                && (recovery.Some? <==> order[k] == failed)
                && (recovery.Some? ==> recovery.value.ocs == failed && recovery.value.oldGeneration == old(generations)[failed]
                                       && recovery.value.newGeneration == generations[failed])
      ensures old(Healthy()) && Linked(payload, receipts) && order[k] == failed && !starts ==>
                && r.Err? && generations == old(generations)
                && fence.current == old(fence.current)[failed := old(generations)[failed] + 1]
    {
      hide Process, Checked;
      recovery := None;
      var ocs := order[k];
      var target := workers[ocs];
      if !target.alive {
        return Err(WorkerNotActive), None;
      }
      if !fence.Admits(ocs, target.generation) {
        return Err(StaleGeneration), None;
      }
      if receipts != [] && HashOf(payload) != Last(receipts).outputHash {
        return Err(PredecessorHashBreak), None;
      }
      var e := NextEnvelope(order, target.generation, mission, trace, payload, receipts);
      if ocs == failed {
        var restarted := RestartActor(ocs, starts);
        if restarted.Err? {
          return Err(restarted.error), None;
        }
        recovery := Some(restarted.value);
        e := e.(expectedGeneration := restarted.value.newGeneration);
      }
      var current := workers[ocs];
      if !current.alive {
        return Err(WorkerNotActive), recovery;
      }
      if !fence.Admits(ocs, current.generation) {
        return Err(StaleGeneration), recovery;
      }
      var processed := Process(roles, ocs, current.generation, e);
      r := if processed.Ok? then Checked(e, processed.value) else Err(processed.error);
    }

    /** An undisturbed mission that has passed `k` actors, started from generations `g` and fences `f`. */
    ghost predicate Passed(k: nat, fields: map<string, string>, failed: Ocs, mission: string, trace: nat, payload: Payload,
                           receipts: seq<Receipt>, recovery: Option<Recovery>, g: map<Ocs, nat>, f: map<Ocs, nat>)
      requires k <= |order| && failed in g && Cast(roles, order)
      reads this, fence
    {
      var done := failed in order[..k];
      && Healthy()
      && generations == (if done then g[failed := g[failed] + 1] else g)
      && (!done ==> fence.current == f)
      && |receipts| == k && Causal(roles, order, Initial(fields, mission), receipts)
      && payload == After(roles, order, Initial(fields, mission), k)
      && Linked(payload, receipts) && Stamped(receipts, mission, trace)
      && (recovery.Some? <==> done)
      && (done ==> recovery.value.ocs == failed && recovery.value.oldGeneration == g[failed]
                   && recovery.value.newGeneration == generations[failed])
    }

    /** One more actor. */
    method PassActor(k: nat, ghost fields: map<string, string>, failed: Ocs, starts: bool, mission: string, trace: nat, payload: Payload,
                     receipts: seq<Receipt>, recovery: Option<Recovery>, ghost g: map<Ocs, nat>, ghost f: map<Ocs, nat>)
      returns (r: Result<Receipt>, recovery': Option<Recovery>)
      requires Valid() && k < |order| && |receipts| == k && failed in g
      modifies this, fence
      ensures Valid() && issued >= old(issued)
      ensures forall o :: o in order ==> fence.current[o] >= old(fence.current)[o]
      ensures old(Passed(k, fields, failed, mission, trace, payload, receipts, recovery, g, f)) && (order[k] != failed || starts) ==>
                r.Ok? && Passed(k + 1, fields, failed, mission, trace, r.value.output, receipts + [r.value], recovery', g, f)
      ensures old(Passed(k, fields, failed, mission, trace, payload, receipts, recovery, g, f)) && order[k] == failed && !starts ==>
                r.Err? && generations == g && fence.current == f[failed := g[failed] + 1]
    {
      hide After, Turn, Causal;
      OnceInOrder(roles, order, k, failed);
      if Passed(k, fields, failed, mission, trace, payload, receipts, recovery, g, f) {
        TurnExtends(roles, order, if order[k] == failed then g[failed] + 1 else generations[order[k]], mission, trace,
                    fields, payload, receipts, true);
      }
      var restarted: Option<Recovery>;
      r, restarted := ActorTurn(k, failed, starts, mission, trace, payload, receipts);
      recovery' := if restarted.Some? then restarted else recovery;
    }

    /** execute_with_midflight_recovery: the failed actor is replaced while its message is in flight. */
    method ExecuteWithMidflightRecovery(fields: map<string, string>, failed: Ocs, mission: string, starts: bool)
      returns (r: Result<MissionResult>)
      requires Valid()
      modifies this, fence
      ensures Valid() && (failed in order ==> issued > old(issued))
      ensures r.Ok? ==> failed in order && r.value.mission == mission && r.value.trace == old(issued)
      ensures forall o :: o in order ==> fence.current[o] >= old(fence.current)[o]
      ensures failed !in order ==> r == Err(UnknownOcs) && generations == old(generations) && fence.current == old(fence.current)
      ensures old(Healthy()) && failed in order && starts ==>
                && Healthy() && generations == old(generations)[failed := old(generations)[failed] + 1]
                && r.Ok? && ResultOk(r.value, fields, failed, mission)
                && r.value.recovery.oldGeneration == old(generations)[failed] && r.value.recovery.newGeneration == generations[failed]
      ensures old(Healthy()) && failed in order && !starts ==>
                && r.Err? && generations == old(generations)
                && fence.current == old(fence.current)[failed := old(generations)[failed] + 1]
    {
      hide After, Turn, Causal, RunAll, Complete, Cast, Stamped, Linked;
      if failed !in order {
        return Err(UnknownOcs);
      }
      ghost var healthy := Healthy();
      var trace := issued;
      issued := issued + 1;
      var payload := Initial(fields, mission);
      var receipts: seq<Receipt> := [];
      var recovery: Option<Recovery> := None;
      NoReceipts(roles, order, payload);
      NothingStamped(payload, mission, trace);
      var k := 0;
      while k < |order|
        invariant 0 <= k <= |order| && |receipts| == k
        invariant Valid() && issued > old(issued) == trace
        invariant forall o :: o in order ==> fence.current[o] >= old(fence.current)[o]
        invariant healthy ==> Passed(k, fields, failed, mission, trace, payload, receipts, recovery, old(generations), old(fence.current))
        invariant healthy && !starts ==> failed !in order[..k]
      {
        var turn;
        OnceInOrder(roles, order, k, failed);
        turn, recovery := PassActor(k, fields, failed, starts, mission, trace, payload, receipts, recovery, old(generations), old(fence.current));
        if turn.Err? {
          return Err(turn.error);
        }
        receipts := receipts + [turn.value];
        payload := turn.value.output;
        k := k + 1;
      }
      assert order[..k] == order;
      if healthy {
        AllPassed(fields, mission, receipts);
      }
      if recovery.None? || !Complete(roles, order, payload.contributions) {
        return Err(Incomplete);
      }
      r := Ok(MissionResult(mission, trace, receipts, payload, recovery.value));
    }

    lemma AllPassed(fields: map<string, string>, mission: string, receipts: seq<Receipt>)
      requires Cast(roles, order) && |receipts| == |order| && Causal(roles, order, Initial(fields, mission), receipts)
      ensures RunAll(roles, order, Initial(fields, mission)) == Ok(After(roles, order, Initial(fields, mission), |order|))
      ensures Complete(roles, order, After(roles, order, Initial(fields, mission), |order|).contributions)
    {
      hide Causal;
      FinishedIsFaithful(roles, order, Initial(fields, mission), receipts);
    }

    /** exercise_live_stale_writer_fencing: the old worker still computes, but no longer commits. */
    method ExerciseLiveStaleWriterFencing(ocs: Ocs, starts: bool) returns (r: Result<Evidence>)
      requires Valid()
      modifies this, fence
      ensures Valid()
      ensures forall o :: o in order ==> fence.current[o] >= old(fence.current)[o]
      ensures r.Ok? ==>
                && ocs in order && generations == old(generations)[ocs := old(generations)[ocs] + 1]
                && r.value == Evidence(old(generations)[ocs], old(generations)[ocs] + 1, true, true, true, true, true, true)
      ensures old(Healthy()) && ocs in order && starts ==> r.Ok? && Healthy()
      ensures old(Healthy()) && ocs in order && !starts ==>
                r.Err? && generations == old(generations) && fence.current == old(fence.current)[ocs := old(generations)[ocs] + 1]
    {
      hide Process, Transform;
      if ocs !in order {
        return Err(UnknownOcs);
      }
      var stale := workers[ocs];
      if !stale.alive {
        return Err(WorkerNotActive);
      }
      var staleGeneration := generations[ocs];
      var advanced := fence.Advance(ocs, staleGeneration);
      if advanced.Err? {
        return Err(advanced.error);
      }
      var currentGeneration := advanced.value;
      if !starts {
        return Err(WorkerNotActive);
      }
      var replacement := Worker(issued, currentGeneration, true);
      var trace := issued + 1;
      issued := issued + 2;
      var payload := Initial(map["goal" := "live stale writer fencing supplemental qualification"], "dr6s");
      var e := Envelope(Message(trace, 0), "dr6s", ocs, staleGeneration, payload, HashOf(payload), HashOf(payload), FounderRoot, trace, trace);
      LoneTurn(roles, order, ocs, stale.generation, e);
      var staleReceipt := Process(roles, ocs, stale.generation, e);
      if staleReceipt.Err? {
        return Err(staleReceipt.error);
      }
      var commitDenied := !fence.Admits(ocs, staleGeneration);
      var effectDenied := !fence.Admits(ocs, staleGeneration);
      var e' := e.(message := Message(trace, 1), expectedGeneration := currentGeneration);
      LoneTurn(roles, order, ocs, replacement.generation, e');
      var currentReceipt := Process(roles, ocs, replacement.generation, e');
      if !fence.Admits(ocs, currentGeneration) {
        return Err(StaleGeneration);
      }
      generations := generations[ocs := currentGeneration];
      workers := workers[ocs := replacement];
      return Ok(Evidence(staleGeneration, currentGeneration, staleReceipt.value.generation == staleGeneration, commitDenied, effectDenied,
                         currentReceipt.value.generation == currentGeneration, true, true));
    }

    /** What a mission with a recovery in it returns: exactly what a run without failures returns. */
    ghost predicate ResultOk(m: MissionResult, fields: map<string, string>, failed: Ocs, mission: string)
      requires Cast(roles, order)
    {
      && m.mission == mission && m.recovery.ocs == failed
      && RunAll(roles, order, Initial(fields, mission)) == Ok(m.payload) && Complete(roles, order, m.payload.contributions)
      && |m.receipts| == |order| && Causal(roles, order, Initial(fields, mission), m.receipts)
      && Stamped(m.receipts, mission, m.trace)
    }
  }

  /** Receipts carry the mission and the trace of their run. */
  predicate Stamped(receipts: seq<Receipt>, mission: string, trace: nat) {
    forall k :: 0 <= k < |receipts| ==> receipts[k].mission == mission && receipts[k].trace == trace && receipts[k].correlation == trace
  }

  /** A worker accepts a lone envelope exactly when it names its generation. */
  lemma LoneTurn(roles: Roles, order: seq<Ocs>, ocs: Ocs, generation: nat, e: Envelope)
    requires Cast(roles, order) && ocs in order && e.target == ocs
    requires e.payload.contributions == map[] && e.payloadHash == HashOf(e.payload) && e.predecessorHash == e.payloadHash
    ensures Process(roles, ocs, generation, e).Ok? <==> e.expectedGeneration == generation
    ensures Process(roles, ocs, generation, e).Ok? ==> Process(roles, ocs, generation, e).value.generation == generation
  {
  }

  lemma NothingStamped(payload: Payload, mission: string, trace: nat)
    ensures Stamped([], mission, trace) && Linked(payload, [])
  {
  }

  lemma OnceInOrder(roles: Roles, order: seq<Ocs>, k: nat, o: Ocs)
    requires Cast(roles, order) && k < |order|
    ensures o in order[..k + 1] <==> o in order[..k] || order[k] == o
    ensures order[k] == o ==> o !in order[..k]
  {
    assert order[..k + 1] == order[..k] + [order[k]];
  }

  // ---------------------------------------------------------------- many missions in a row

  function Digit(n: nat): char
    requires n < 10
  {
    '0' + n as char
  }

  function Digits(n: nat): string {
    if n < 10 then [Digit(n)] else Digits(n / 10) + [Digit(n % 10)]
  }

  function Zeros(n: nat): string {
    if n == 0 then "" else Zeros(n - 1) + "0"
  }

  /** The format specification 04d. */
  function Numbered(n: nat): string {
    var d := Digits(n);
    if |d| < 4 then Zeros(4 - |d|) + d else d
  }

  function ValueOf(s: string): int {
    if s == "" then 0 else 10 * ValueOf(DropLast(s)) + (Last(s) as int - '0' as int)
  }

  lemma {:induction false} DigitsValue(n: nat)
    ensures ValueOf(Digits(n)) == n
  {
    if n >= 10 {
      DigitsValue(n / 10);
      DropLastAppend(Digits(n / 10), Digit(n % 10));
    } else {
      DropLastAppend("", Digit(n));
      assert "" + [Digit(n)] == [Digit(n)];
    }
  }

  lemma {:induction false} ZerosValue(n: nat, s: string)
    ensures ValueOf(Zeros(n) + s) == ValueOf(s)
  {
    if s == "" {
      assert Zeros(n) + s == Zeros(n);
      if n > 0 {
        ZerosValue(n - 1, "");
        assert Zeros(n - 1) + "" == Zeros(n - 1);
        DropLastAppend(Zeros(n - 1), '0');
      }
    } else {
      ZerosValue(n, DropLast(s));
      assert DropLast(Zeros(n) + s) == Zeros(n) + DropLast(s) && Last(Zeros(n) + s) == Last(s);
    }
  }

  /** Mission ids of different cycles differ. */
  lemma NumberedDiffer(prefix: string, m: nat, n: nat)
    requires m != n
    ensures prefix + ":" + Numbered(m) != prefix + ":" + Numbered(n)
  {
    DigitsValue(m);
    DigitsValue(n);
    if |Digits(m)| < 4 { ZerosValue(4 - |Digits(m)|, Digits(m)); }
    if |Digits(n)| < 4 { ZerosValue(4 - |Digits(n)|, Digits(n)); }
    assert ValueOf(Numbered(m)) == m && ValueOf(Numbered(n)) == n;
    assert (prefix + ":" + Numbered(m))[|prefix + ":"|..] == Numbered(m);
    assert (prefix + ":" + Numbered(n))[|prefix + ":"|..] == Numbered(n);
  }

  /** How often an actor fails in a schedule. */
  function Failures(schedule: seq<Ocs>, o: Ocs): nat {
    if schedule == [] then 0 else Failures(DropLast(schedule), o) + (if Last(schedule) == o then 1 else 0)
  }

  datatype CycleRecord = CycleRecord(mission: string, failed: Ocs, trace: nat, generation: nat)

  /** _causal_reconstruction_valid. */
  predicate Reconstructs(count: nat, m: MissionResult) {
    |m.receipts| == count && Stamped(m.receipts, m.mission, m.trace) && HashChain(m.receipts)
  }

  /** _validate_cycle. */
  predicate CycleValid(roles: Roles, order: seq<Ocs>, m: MissionResult, marker: string, missions: set<string>, traces: set<nat>) {
    && m.mission !in missions && m.trace !in traces
    && "cycle_marker" in m.payload.fields && m.payload.fields["cycle_marker"] == marker
    && |m.receipts| == |order|
    && |set k | 0 <= k < |m.receipts| :: m.receipts[k].target| == |order|
    && Complete(roles, order, m.payload.contributions)
  }

  lemma TargetsCounted(order: seq<Ocs>, receipts: seq<Receipt>)
    requires Distinct(order) && |receipts| == |order| && forall k :: 0 <= k < |receipts| ==> receipts[k].target == order[k]
    ensures |set k | 0 <= k < |receipts| :: receipts[k].target| == |order|
  {
    var targets := set k | 0 <= k < |receipts| :: receipts[k].target;
    assert targets == set o | o in order by {
      forall o | o in order ensures o in targets {
        var k :| 0 <= k < |order| && order[k] == o;
        assert receipts[k].target == o;
      }
    }
    DistinctCount(order);
  }

  lemma {:induction false} DistinctCount(order: seq<Ocs>)
    requires Distinct(order)
    ensures |set o | o in order| == |order|
  {
    if order != [] {
      DistinctCount(DropLast(order));
      assert order == DropLast(order) + [Last(order)];
      assert (set o | o in order) == (set o | o in DropLast(order)) + {Last(order)};
      assert Last(order) !in DropLast(order);
    }
  }

  /** What a recovered mission returns passes every check of its cycle. */
  lemma CyclePasses(roles: Roles, order: seq<Ocs>, m: MissionResult, fields: map<string, string>, missions: set<string>, traces: set<nat>)
    requires Cast(roles, order) && RunAll(roles, order, Initial(fields, m.mission)) == Ok(m.payload)
    requires Complete(roles, order, m.payload.contributions)
    requires |m.receipts| == |order| && Causal(roles, order, Initial(fields, m.mission), m.receipts) && Stamped(m.receipts, m.mission, m.trace)
    requires m.mission !in missions && m.trace !in traces && "cycle_marker" in fields
    ensures CycleValid(roles, order, m, fields["cycle_marker"], missions, traces) && Reconstructs(|order|, m)
    ensures m.payload.contributions.Keys == set o | o in order
  {
    hide After, Complete, RunAll;
    TargetsCounted(order, m.receipts);
    CausalChains(roles, order, Initial(fields, m.mission), m.receipts);
    RunAllContributes(roles, order, Initial(fields, m.mission).fields);
  }

  class LongitudinalDistributedOperation {
    const fleet: RecoverableFleet

    constructor (fleet: RecoverableFleet)
      ensures this.fleet == fleet
    {
      this.fleet := fleet;
    }

    function MissionId(prefix: string, index: nat): string {
      prefix + ":" + Numbered(index)
    }

    ghost predicate SeenBefore(prefix: string, k: nat, missions: set<string>, traces: set<nat>, issued: nat) {
      && (forall m :: m in missions ==> exists j :: 1 <= j <= k && m == MissionId(prefix, j))
      && (forall t :: t in traces ==> t < issued)
    }

    /** One cycle: a mission that loses `failed` on its way, and the checks on what it returned. */
    method RunCycle(k: nat, failed: Ocs, prefix: string, starts: bool, missions: set<string>, traces: set<nat>) returns (r: Result<CycleRecord>)
      requires fleet.Valid() && failed in fleet.order && SeenBefore(prefix, k, missions, traces, fleet.issued)
      modifies fleet, fleet.fence
      ensures fleet.Valid()
      ensures forall o :: o in fleet.order ==> fleet.fence.current[o] >= old(fleet.fence.current)[o]
      ensures r.Ok? ==>
                && r.value.mission == MissionId(prefix, k + 1) && r.value.failed == failed && r.value.mission !in missions && r.value.trace !in traces
                && SeenBefore(prefix, k + 1, missions + {r.value.mission}, traces + {r.value.trace}, fleet.issued)
      ensures old(fleet.Healthy()) ==> (r.Ok? <==> starts)
      ensures old(fleet.Healthy()) && starts ==>
                && fleet.Healthy() && fleet.generations == old(fleet.generations)[failed := old(fleet.generations)[failed] + 1]
                && r.value.generation == fleet.generations[failed]
    {
      hide RunAll, Causal, Complete, Stamped, CycleValid, Reconstructs, MissionId, Numbered;
      var mission, marker := MissionId(prefix, k + 1), "DR7_CYCLE_" + Numbered(k + 1);
      var fields := map["goal" := "longitudinal-distributed-operation", "cycle_marker" := marker];
      NewMission(prefix, k, missions);
      ghost var healthy := fleet.Healthy();
      var result := fleet.ExecuteWithMidflightRecovery(fields, failed, mission, starts);
      if result.Err? {
        return Err(result.error);
      }
      var m := result.value;
      if healthy {
        CyclePasses(fleet.roles, fleet.order, m, fields, missions, traces);
      }
      if !CycleValid(fleet.roles, fleet.order, m, marker, missions, traces) || !Reconstructs(|fleet.order|, m) {
        return Err(Drift);
      }
      return Ok(CycleRecord(m.mission, failed, m.trace, m.recovery.newGeneration));
    }

    /** The cycles recorded so far: fresh ids, and one generation more for the failed actor each time. */
    ghost predicate Recorded(records: seq<CycleRecord>, schedule: seq<Ocs>, prefix: string, g: map<Ocs, nat>) {
      && |records| == |schedule|
      && (forall k :: 0 <= k < |records| ==>
            records[k].mission == MissionId(prefix, k + 1) && records[k].failed == schedule[k] && schedule[k] in g
            && records[k].generation == g[schedule[k]] + Failures(schedule[..k + 1], schedule[k]))
      && (forall i, k :: 0 <= i < k < |records| ==> records[i].mission != records[k].mission && records[i].trace != records[k].trace)
    }

    /** Every generation is where the failures so far have brought it. */
    ghost predicate Counted(now: map<Ocs, nat>, schedule: seq<Ocs>, g: map<Ocs, nat>) {
      forall o :: o in fleet.order ==> o in now && o in g && now[o] == g[o] + Failures(schedule, o)
    }

    lemma CycleCounted(now: map<Ocs, nat>, schedule: seq<Ocs>, failed: Ocs, g: map<Ocs, nat>)
      requires Counted(now, schedule, g) && failed in fleet.order
      ensures Counted(now[failed := now[failed] + 1], schedule + [failed], g)
      ensures now[failed] + 1 == g[failed] + Failures(schedule + [failed], failed)
    {
      DropLastAppend(schedule, failed);
    }

    lemma CycleRecorded(records: seq<CycleRecord>, schedule: seq<Ocs>, prefix: string, g: map<Ocs, nat>, r: CycleRecord)
      requires Recorded(records, schedule, prefix, g) && r.failed in g
      requires r.mission == MissionId(prefix, |records| + 1) && r.generation == g[r.failed] + Failures(schedule + [r.failed], r.failed)
      requires forall k :: 0 <= k < |records| ==> records[k].mission != r.mission && records[k].trace != r.trace
      ensures Recorded(records + [r], schedule + [r.failed], prefix, g)
    {
      hide Failures, MissionId;
      var s' := schedule + [r.failed];
      forall k | 0 <= k < |schedule|
        ensures Failures(s'[..k + 1], schedule[k]) == Failures(schedule[..k + 1], schedule[k])
      {
        assert s'[..k + 1] == schedule[..k + 1];
      }
      assert s'[..|s'|] == s';
    }

    /** execute_cycles: one mission per failure, on one fleet that goes on evolving. */
    method ExecuteCycles(schedule: seq<Ocs>, prefix: string, starts: seq<bool>) returns (r: Result<seq<CycleRecord>>)
      requires fleet.Valid() && |starts| == |schedule|
      modifies fleet, fleet.fence
      ensures fleet.Valid()
      ensures forall o :: o in fleet.order ==> fleet.fence.current[o] >= old(fleet.fence.current)[o]
      ensures |schedule| < |fleet.order| ==> r == Err(TooShort)
      ensures |schedule| >= |fleet.order| && (exists k :: 0 <= k < |schedule| && schedule[k] !in fleet.order) ==> r == Err(UnknownOcs)
      ensures old(fleet.Healthy()) && |schedule| >= |fleet.order| && (forall k :: 0 <= k < |schedule| ==> schedule[k] in fleet.order) ==>
                && (r.Ok? <==> forall k :: 0 <= k < |starts| ==> starts[k])
                && (r.Ok? ==>
                      && fleet.Healthy() && Counted(fleet.fence.current, schedule, old(fleet.generations))
                      && Recorded(r.value, schedule, prefix, old(fleet.generations)))
    {
      hide Counted, Recorded, SeenBefore, Failures, MissionId, Cast;
      if |schedule| < |fleet.order| {
        return Err(TooShort);
      }
      if exists k :: 0 <= k < |schedule| && schedule[k] !in fleet.order {
        return Err(UnknownOcs);
      }
      var records: seq<CycleRecord> := [];
      var missions: set<string> := {};
      var traces: set<nat> := {};
      ghost var healthy, g := fleet.Healthy(), fleet.generations;
      NothingYet(prefix);
      var k := 0;
      while k < |schedule|
        invariant 0 <= k <= |schedule| && |records| == k
        invariant fleet.Valid() && SeenBefore(prefix, k, missions, traces, fleet.issued)
        invariant forall o :: o in fleet.order ==> fleet.fence.current[o] >= old(fleet.fence.current)[o]
        invariant forall j :: 0 <= j < k ==> records[j].mission in missions && records[j].trace in traces
        invariant healthy ==> fleet.Healthy() && (forall j :: 0 <= j < k ==> starts[j])
        invariant healthy ==> Counted(fleet.generations, schedule[..k], g) && Recorded(records, schedule[..k], prefix, g)
      {
        assert schedule[..k + 1] == schedule[..k] + [schedule[k]];
        if healthy {
          CycleCounted(fleet.generations, schedule[..k], schedule[k], g);
          CountedHas(fleet.generations, schedule[..k], g);
        }
        var cycle := RunCycle(k, schedule[k], prefix, starts[k], missions, traces);
        if cycle.Err? {
          return Err(cycle.error);
        }
        if healthy {
          CycleRecorded(records, schedule[..k], prefix, g, cycle.value);
        }
        records := records + [cycle.value];
        missions := missions + {cycle.value.mission};
        traces := traces + {cycle.value.trace};
        k := k + 1;
      }
      assert schedule[..k] == schedule;
      if healthy {
        FencesCounted(fleet.fence.current, fleet.generations, schedule, g);
      }
      return Ok(records);
    }

    lemma NothingYet(prefix: string)
      requires fleet.Valid()
      ensures SeenBefore(prefix, 0, {}, {}, fleet.issued)
      ensures Counted(fleet.generations, [], fleet.generations) && Recorded([], [], prefix, fleet.generations)
    {
    }

    lemma CountedHas(now: map<Ocs, nat>, schedule: seq<Ocs>, g: map<Ocs, nat>)
      requires Counted(now, schedule, g)
      ensures forall o :: o in fleet.order ==> o in now && o in g
    {
    }

    lemma FencesCounted(fences: map<Ocs, nat>, now: map<Ocs, nat>, schedule: seq<Ocs>, g: map<Ocs, nat>)
      requires Counted(now, schedule, g) && forall o :: o in fleet.order ==> o in fences && o in now && fences[o] == now[o]
      ensures Counted(fences, schedule, g)
    {
    }

    lemma NewMission(prefix: string, k: nat, missions: set<string>)
      requires forall m :: m in missions ==> exists j :: 1 <= j <= k && m == MissionId(prefix, j)
      ensures MissionId(prefix, k + 1) !in missions
    {
      forall j | 1 <= j <= k ensures MissionId(prefix, j) != MissionId(prefix, k + 1) {
        NumberedDiffer(prefix, j, k + 1);
      }
    }
  }
}
