/**
 The shared fleet of app/distributed_runtime/concurrent_missions.py: admission by
 a semaphore, the set of active missions, and one mission per thread.  A lock
 region is one step; a worker may fail to answer at any of them.
 */
module ConcurrentMissions {
  import opened Prelude
  import opened CausalMission

  datatype Outcome = Refused(error: Error) | Failed(error: Error) | Completed(payload: Payload, receipts: seq<Receipt>)

  /** Where a thread is in execute_mission. */
  datatype Thread =
    | Calling(mission: string, fields: map<string, string>)
    | Admitted(mission: string, fields: map<string, string>)
    | Working(mission: string, fields: map<string, string>, trace: nat, payload: Payload, receipts: seq<Receipt>)
    | Leaving(mission: string, fields: map<string, string>, outcome: Outcome)
    | Discarded(mission: string, fields: map<string, string>, outcome: Outcome)
    | Ended(mission: string, fields: map<string, string>, outcome: Outcome)

  datatype Fleet = Fleet(
    roles: Roles, order: seq<Ocs>, generations: map<Ocs, nat>, maxInflight: nat,
    free: int, active: set<string>, maxObserved: nat, issued: nat, threads: seq<Thread>)

  predicate WellFormed(f: Fleet) {
    Cast(f.roles, f.order) && (forall o :: o in f.order ==> o in f.generations) && f.maxInflight >= 2
  }

  /** The envelope a mission sends to its next actor. */
  function NextEnvelope(order: seq<Ocs>, generation: nat, mission: string, trace: nat, payload: Payload, receipts: seq<Receipt>): Envelope
    requires |receipts| < |order|
  {
    Envelope(Message(trace, |receipts|), mission, order[|receipts|], generation, payload, HashOf(payload),
             if receipts == [] then HashOf(payload) else Last(receipts).outputHash,
             if receipts == [] then FounderRoot else Last(receipts).message, trace, trace)
  }

  /** The checks of execute_mission on a receipt. */
  function Checked(e: Envelope, r: Receipt): Result<Receipt> {
    if r.mission != e.mission then Err(Drift)
    else if r.trace != e.trace || r.correlation != e.correlation then Err(Drift)
    else if r.inputHash != e.payloadHash then Err(PayloadHashMismatch)
    else if HashOf(r.output) != r.outputHash then Err(PayloadHashMismatch)
    else if "mission_id" !in r.output.fields || r.output.fields["mission_id"] != e.mission then Err(Drift)
    else Ok(r)
  }

  /** One actor's turn, if its worker answers. */
  function Turn(roles: Roles, order: seq<Ocs>, generation: nat, mission: string, trace: nat, payload: Payload, receipts: seq<Receipt>,
                answers: bool): Result<Receipt>
    requires |receipts| < |order|
  {
    if !answers then Err(WorkerNotActive)
    else if receipts != [] && HashOf(payload) != Last(receipts).outputHash then Err(PredecessorHashBreak)
    else
      var e := NextEnvelope(order, generation, mission, trace, payload, receipts);
      match Process(roles, order[|receipts|], generation, e)
      case Err(x) => Err(x)
      case Ok(r) => Checked(e, r)
  }

  function Finished(roles: Roles, order: seq<Ocs>, payload: Payload, receipts: seq<Receipt>): Outcome {
    if Complete(roles, order, payload.contributions) then Completed(payload, receipts) else Failed(Incomplete)
  }

  /** One step of thread `i`. */
  function Step(f: Fleet, i: nat, answers: bool): Fleet
    requires WellFormed(f) && i < |f.threads|
  {
    match f.threads[i]
    case Calling(m, fields) =>
      if f.free <= 0 then f.(threads := f.threads[i := Ended(m, fields, Refused(Backpressure))])
      else f.(free := f.free - 1, threads := f.threads[i := Admitted(m, fields)])
    case Admitted(m, fields) =>
      if m in f.active then f.(free := f.free + 1, threads := f.threads[i := Ended(m, fields, Refused(DuplicateMission))])
      else
        var active := f.active + {m};
        f.(active := active, maxObserved := if |active| > f.maxObserved then |active| else f.maxObserved, issued := f.issued + 1,
           threads := f.threads[i := Working(m, fields, f.issued, Initial(fields, m), [])])
    case Working(m, fields, trace, payload, receipts) =>
      if |receipts| >= |f.order| then f.(threads := f.threads[i := Leaving(m, fields, Finished(f.roles, f.order, payload, receipts))])
      else
        (match Turn(f.roles, f.order, f.generations[f.order[|receipts|]], m, trace, payload, receipts, answers)
         case Err(x) => f.(threads := f.threads[i := Leaving(m, fields, Failed(x))])
         case Ok(r) => f.(threads := f.threads[i := Working(m, fields, trace, r.output, receipts + [r])]))
    case Leaving(m, fields, outcome) =>
      f.(active := f.active - {m}, threads := f.threads[i := Discarded(m, fields, outcome)])
    case Discarded(m, fields, outcome) =>
      f.(free := f.free + 1, threads := f.threads[i := Ended(m, fields, outcome)])
    case Ended(_, _, _) => f
  }

  datatype Move = Submit(mission: string, fields: map<string, string>) | Advance(thread: nat, answers: bool)

  function Apply(f: Fleet, m: Move): Fleet
    requires WellFormed(f)
    ensures WellFormed(Apply(f, m)) && Apply(f, m).roles == f.roles && Apply(f, m).order == f.order && Apply(f, m).maxInflight == f.maxInflight
  {
    match m
    case Submit(mission, fields) => f.(threads := f.threads + [Calling(mission, fields)])
    case Advance(i, answers) => if i < |f.threads| then Step(f, i, answers) else f
  }

  function Run(f: Fleet, moves: seq<Move>): Fleet
    requires WellFormed(f)
    ensures WellFormed(Run(f, moves)) && Run(f, moves).roles == f.roles && Run(f, moves).order == f.order
    ensures Run(f, moves).maxInflight == f.maxInflight
  {
    if moves == [] then f else Apply(Run(f, DropLast(moves)), Last(moves))
  }

  // ---------------------------------------------------------------- permits and the active set

  predicate Holds(t: Thread) {
    t.Admitted? || t.Working? || t.Leaving? || t.Discarded?
  }

  predicate Registered(t: Thread) {
    t.Working? || t.Leaving?
  }

  function Held(threads: seq<Thread>): nat {
    if threads == [] then 0 else Held(DropLast(threads)) + (if Holds(Last(threads)) then 1 else 0)
  }

  function RegisteredCount(threads: seq<Thread>): nat {
    if threads == [] then 0 else RegisteredCount(DropLast(threads)) + (if Registered(Last(threads)) then 1 else 0)
  }

  lemma {:induction false} HeldUpdate(threads: seq<Thread>, i: nat, t: Thread)
    requires i < |threads|
    ensures Held(threads[i := t]) == Held(threads) - (if Holds(threads[i]) then 1 else 0) + (if Holds(t) then 1 else 0)
  {
    if i == |threads| - 1 {
      assert DropLast(threads[i := t]) == DropLast(threads);
    } else {
      HeldUpdate(DropLast(threads), i, t);
      assert DropLast(threads[i := t]) == DropLast(threads)[i := t];
    }
  }

  lemma {:induction false} RegisteredUpdate(threads: seq<Thread>, i: nat, t: Thread)
    requires i < |threads|
    ensures RegisteredCount(threads[i := t])
            == RegisteredCount(threads) - (if Registered(threads[i]) then 1 else 0) + (if Registered(t) then 1 else 0)
  {
    if i == |threads| - 1 {
      assert DropLast(threads[i := t]) == DropLast(threads);
    } else {
      RegisteredUpdate(DropLast(threads), i, t);
      assert DropLast(threads[i := t]) == DropLast(threads)[i := t];
    }
  }

  lemma {:induction false} RegisteredHold(threads: seq<Thread>)
    ensures RegisteredCount(threads) <= Held(threads)
  {
    if threads != [] {
      RegisteredHold(DropLast(threads));
    }
  }

  /** The active set names the registered threads, each once. */
  ghost predicate Named(active: set<string>, threads: seq<Thread>) {
    && (forall i :: 0 <= i < |threads| && Registered(threads[i]) ==> threads[i].mission in active)
    && (forall i, j :: 0 <= i < j < |threads| && Registered(threads[i]) && Registered(threads[j]) ==> threads[i].mission != threads[j].mission)
    && |active| == RegisteredCount(threads)
  }

  /** A completed mission carries what it would have carried alone. */
  ghost predicate Faithful(roles: Roles, order: seq<Ocs>, t: Thread)
    requires Cast(roles, order)
  {
    var start := Initial(t.fields, t.mission);
    match t
    case Working(_, _, _, payload, receipts) =>
      && |receipts| <= |order| && Causal(roles, order, start, receipts) && payload == After(roles, order, start, |receipts|)
    case Leaving(_, _, o) => FaithfulOutcome(roles, order, start, o)
    case Discarded(_, _, o) => FaithfulOutcome(roles, order, start, o)
    case Ended(_, _, o) => FaithfulOutcome(roles, order, start, o)
    case _ => true
  }

  ghost predicate FaithfulOutcome(roles: Roles, order: seq<Ocs>, start: Payload, o: Outcome)
    requires Cast(roles, order) && start.contributions == map[]
  {
    o.Completed? ==>
      && |o.receipts| == |order| && Causal(roles, order, start, o.receipts)
      && RunAll(roles, order, start) == Ok(o.payload) && Complete(roles, order, o.payload.contributions)
  }

  ghost predicate FleetOk(f: Fleet)
    requires WellFormed(f)
  {
    && f.free >= 0 && f.free + Held(f.threads) == f.maxInflight
    && Named(f.active, f.threads)
    && |f.active| <= f.maxObserved <= f.maxInflight
    && (forall i :: 0 <= i < |f.threads| ==> Faithful(f.roles, f.order, f.threads[i]))
  }

  lemma NamedUpdate(active: set<string>, threads: seq<Thread>, i: nat, t: Thread)
    requires Named(active, threads) && i < |threads| && t.mission == threads[i].mission
    ensures !Registered(threads[i]) && Registered(t) && t.mission !in active ==> Named(active + {t.mission}, threads[i := t])
    ensures Registered(threads[i]) && !Registered(t) ==> Named(active - {t.mission}, threads[i := t])
    ensures Registered(threads[i]) == Registered(t) ==> Named(active, threads[i := t])
  {
    hide RegisteredCount;
    RegisteredUpdate(threads, i, t);
  }

  /** A turn that succeeds extends the run of the mission by the next actor. */
  lemma TurnExtends(roles: Roles, order: seq<Ocs>, generation: nat, mission: string, trace: nat, fields: map<string, string>,
                    payload: Payload, receipts: seq<Receipt>, answers: bool)
    requires Cast(roles, order) && |receipts| < |order|
    requires Causal(roles, order, Initial(fields, mission), receipts)
    requires payload == After(roles, order, Initial(fields, mission), |receipts|)
    ensures var r := Turn(roles, order, generation, mission, trace, payload, receipts, answers);
            && (r.Ok? <==> answers)
            && (r.Ok? ==>
                  && Causal(roles, order, Initial(fields, mission), receipts + [r.value])
                  && r.value.output == After(roles, order, Initial(fields, mission), |receipts| + 1)
                  && r.value.generation == generation && r.value.message == Message(trace, |receipts|)
                  && r.value.mission == mission && r.value.trace == trace && r.value.correlation == trace
                  && r.value.outputHash == HashOf(r.value.output))
            && (r.Err? ==> r.error == WorkerNotActive)
  {
    hide After, Transform;
    var start := Initial(fields, mission);
    AfterStep(roles, order, start, |receipts|);
    KeepsMission(roles, order, start, |receipts| + 1);
  }

  lemma KeepsMission(roles: Roles, order: seq<Ocs>, start: Payload, k: nat)
    requires Cast(roles, order) && k <= |order| && start.contributions == map[]
    ensures forall f :: f in start.fields && f != "last_contributor" ==>
              f in After(roles, order, start, k).fields && After(roles, order, start, k).fields[f] == start.fields[f]
  {
    RunAllContributes(roles, order[..k], start.fields);
  }

  lemma FinishedIsFaithful(roles: Roles, order: seq<Ocs>, start: Payload, receipts: seq<Receipt>)
    requires Cast(roles, order) && start.contributions == map[] && |receipts| == |order| && Causal(roles, order, start, receipts)
    ensures var o := Finished(roles, order, After(roles, order, start, |order|), receipts);
            FaithfulOutcome(roles, order, start, o) && o.Completed?
  {
    hide Causal;
    assert order[..|order|] == order;
    RunAllCompletes(roles, order, start.fields);
  }

  /** Thread `i` moved to `t`; nothing else but the counters changed. */
  lemma Moved(f: Fleet, i: nat, f': Fleet, t: Thread)
    requires WellFormed(f) && FleetOk(f) && i < |f.threads| && WellFormed(f')
    requires f'.threads == f.threads[i := t] && f'.roles == f.roles && f'.order == f.order && f'.maxInflight == f.maxInflight
    requires f'.free == f.free + (if Holds(f.threads[i]) then 1 else 0) - (if Holds(t) then 1 else 0) >= 0
    requires Named(f'.active, f'.threads) && Faithful(f.roles, f.order, t)
    requires |f'.active| <= f'.maxObserved && (f'.maxObserved == f.maxObserved || f'.maxObserved == |f'.active|)
    ensures FleetOk(f')
  {
    hide Named, Faithful, Held;
    HeldUpdate(f.threads, i, t);
    RegisteredHold(f'.threads);
    NamedCounts(f'.active, f'.threads);
  }

  lemma NamedCounts(active: set<string>, threads: seq<Thread>)
    requires Named(active, threads)
    ensures |active| == RegisteredCount(threads)
  {
  }

  lemma WorkingMoves(f: Fleet, i: nat, answers: bool)
    requires WellFormed(f) && FleetOk(f) && i < |f.threads| && f.threads[i].Working?
    ensures FleetOk(Step(f, i, answers))
  {
    hide Named, Held, Causal, After, Turn, Finished, FaithfulOutcome, NextEnvelope;
    var t := f.threads[i];
    assert Faithful(f.roles, f.order, t);
    var t' := Step(f, i, answers).threads[i];
    if |t.receipts| >= |f.order| {
      FinishedIsFaithful(f.roles, f.order, Initial(t.fields, t.mission), t.receipts);
    } else {
      TurnExtends(f.roles, f.order, f.generations[f.order[|t.receipts|]], t.mission, t.trace, t.fields, t.payload, t.receipts, answers);
      FailedIsFaithful(f.roles, f.order, Initial(t.fields, t.mission), WorkerNotActive);
    }
    NamedUpdate(f.active, f.threads, i, t');
    Moved(f, i, Step(f, i, answers), t');
  }

  lemma FailedIsFaithful(roles: Roles, order: seq<Ocs>, start: Payload, e: Error)
    requires Cast(roles, order) && start.contributions == map[]
    ensures FaithfulOutcome(roles, order, start, Failed(e)) && FaithfulOutcome(roles, order, start, Refused(e))
  {
  }

  lemma StepKeeps(f: Fleet, i: nat, answers: bool)
    requires WellFormed(f) && FleetOk(f) && i < |f.threads|
    ensures FleetOk(Step(f, i, answers))
  {
    hide Named, Held, FaithfulOutcome, RegisteredCount;
    var t := f.threads[i];
    if t.Working? {
      WorkingMoves(f, i, answers);
    } else if !t.Ended? {
      assert Faithful(f.roles, f.order, t);
      var f' := Step(f, i, answers);
      FailedIsFaithful(f.roles, f.order, Initial(t.fields, t.mission), Backpressure);
      FailedIsFaithful(f.roles, f.order, Initial(t.fields, t.mission), DuplicateMission);
      StartIsFaithful(f.roles, f.order, t.fields, t.mission, f.issued);
      NamedUpdate(f.active, f.threads, i, f'.threads[i]);
      HeldOne(f.threads, i);
      Moved(f, i, f', f'.threads[i]);
    }
  }

  lemma StartIsFaithful(roles: Roles, order: seq<Ocs>, fields: map<string, string>, mission: string, trace: nat)
    requires Cast(roles, order)
    ensures Faithful(roles, order, Working(mission, fields, trace, Initial(fields, mission), []))
  {
    StartIs(roles, order, Initial(fields, mission));
  }

  lemma HeldOne(threads: seq<Thread>, i: nat)
    requires i < |threads|
    ensures Holds(threads[i]) ==> Held(threads) >= 1
  {
    HeldUpdate(threads, i, Calling("", map[]));
  }

  lemma SubmitKeeps(f: Fleet, mission: string, fields: map<string, string>)
    requires WellFormed(f) && FleetOk(f)
    ensures FleetOk(f.(threads := f.threads + [Calling(mission, fields)]))
  {
    DropLastAppend(f.threads, Calling(mission, fields));
  }

  /**
   For any number of threads in any interleaving, with workers failing at will:
   held and free permits add up to the limit, the active set holds distinct
   missions and stays within it, and whatever completes has the payload and the
   receipts of running alone.
   */
  lemma {:induction false} FleetStaysOk(f: Fleet, moves: seq<Move>)
    requires WellFormed(f) && FleetOk(f)
    ensures FleetOk(Run(f, moves))
  {
    hide FleetOk, Step;
    if moves != [] {
      FleetStaysOk(f, DropLast(moves));
      var g := Run(f, DropLast(moves));
      match Last(moves)
      case Submit(mission, fields) => SubmitKeeps(g, mission, fields);
      case Advance(i, answers) => if i < |g.threads| { StepKeeps(g, i, answers); }
    }
  }

  /** A fleet at rest. */
  lemma IdleIsOk(f: Fleet)
    requires WellFormed(f) && f.threads == [] && f.free == f.maxInflight && f.active == {} && f.maxObserved <= f.maxInflight
    ensures FleetOk(f)
  {
  }

  /** When every thread has ended, every permit is back and no mission is active. */
  lemma {:induction false} AllReleased(f: Fleet, moves: seq<Move>)
    requires WellFormed(f) && FleetOk(f)
    requires forall i :: 0 <= i < |Run(f, moves).threads| ==> Run(f, moves).threads[i].Ended?
    ensures Run(f, moves).free == f.maxInflight && Run(f, moves).active == {}
  {
    hide Step, Faithful;
    FleetStaysOk(f, moves);
    NoneHeld(Run(f, moves).threads);
    RegisteredHold(Run(f, moves).threads);
  }

  lemma {:induction false} NoneHeld(threads: seq<Thread>)
    requires forall i :: 0 <= i < |threads| ==> threads[i].Ended?
    ensures Held(threads) == 0
  {
    if threads != [] {
      NoneHeld(DropLast(threads));
    }
  }

  // ---------------------------------------------------------------- execute_many

  function Unfinished(threads: seq<Thread>): nat {
    if threads == [] then 0 else Unfinished(DropLast(threads)) + (if Last(threads).Ended? then 0 else 1)
  }

  lemma {:induction false} CallingLeavesRoom(threads: seq<Thread>, i: nat)
    requires i < |threads| && threads[i].Calling?
    ensures Held(threads) < Unfinished(threads)
  {
    if i < |threads| - 1 {
      CallingLeavesRoom(DropLast(threads), i);
    } else {
      HeldUnfinished(DropLast(threads));
    }
  }

  lemma {:induction false} HeldUnfinished(threads: seq<Thread>)
    ensures Held(threads) <= Unfinished(threads)
  {
    if threads != [] {
      HeldUnfinished(DropLast(threads));
    }
  }

  /** With no more threads at work than permits, and distinct missions, nobody is ever refused. */
  lemma PoolIsNeverRefused(f: Fleet, i: nat, answers: bool)
    requires WellFormed(f) && FleetOk(f) && i < |f.threads| && Unfinished(f.threads) <= f.maxInflight
    requires forall j, k :: 0 <= j < k < |f.threads| ==> f.threads[j].mission != f.threads[k].mission
    ensures f.threads[i].Calling? ==> Step(f, i, answers).threads[i].Admitted?
    ensures f.threads[i].Admitted? ==> Step(f, i, answers).threads[i].Working?
  {
    hide Faithful, Turn, Finished;
    if f.threads[i].Calling? {
      CallingLeavesRoom(f.threads, i);
    } else if f.threads[i].Admitted? {
      ActiveHasThread(f.active, f.threads, f.threads[i].mission);
    }
  }

  /** Every active mission belongs to a registered thread. */
  lemma ActiveHasThread(active: set<string>, threads: seq<Thread>, mission: string)
    requires Named(active, threads)
    ensures mission in active ==> exists k :: 0 <= k < |threads| && Registered(threads[k]) && threads[k].mission == mission
  {
    var names := RegisteredNames(threads);
    NamesCount(threads);
    assert names <= active;
    SameSize(names, active);
  }

  function RegisteredNames(threads: seq<Thread>): set<string> {
    set k | 0 <= k < |threads| && Registered(threads[k]) :: threads[k].mission
  }

  lemma NamesGrow(threads: seq<Thread>, t: Thread)
    ensures RegisteredNames(threads + [t]) == RegisteredNames(threads) + (if Registered(t) then {t.mission} else {})
  {
    hide Registered;
    var all := threads + [t];
    assert all[|threads|] == t;
    assert forall k :: 0 <= k < |threads| ==> all[k] == threads[k];
  }

  lemma {:induction false} NamesCount(threads: seq<Thread>)
    requires forall i, j :: 0 <= i < j < |threads| && Registered(threads[i]) && Registered(threads[j]) ==> threads[i].mission != threads[j].mission
    ensures |RegisteredNames(threads)| == RegisteredCount(threads)
  {
    if threads == [] {
      assert RegisteredNames(threads) == {};
    } else {
      var before := DropLast(threads);
      NamesCount(before);
      NamesGrow(before, Last(threads));
      assert threads == before + [Last(threads)];
      if Registered(Last(threads)) {
        assert Last(threads).mission !in RegisteredNames(before);
      }
    }
  }

  lemma SameSize<T>(a: set<T>, b: set<T>)
    requires a <= b && |a| == |b|
    ensures a == b
  {
    assert |b - a| == |b| - |a|;
    assert b == a + (b - a);
  }

  // ---------------------------------------------------------------- a whole batch

  predicate MissionsDistinct(threads: seq<Thread>) {
    forall j, k :: 0 <= j < k < |threads| ==> threads[j].mission != threads[k].mission
  }

  /** The pool starts a mission when one of its `maxInflight` workers is free; mission ids are unique. */
  predicate Pooled(f: Fleet, moves: seq<Move>)
    requires WellFormed(f)
  {
    moves != [] ==>
      && Pooled(f, DropLast(moves))
      && var g := Run(f, DropLast(moves));
      (Last(moves).Submit? ==>
         && Unfinished(g.threads) < f.maxInflight
         && (forall j :: 0 <= j < |g.threads| ==> g.threads[j].mission != Last(moves).mission))
  }

  /** Every worker that thread `i` turns to answers. */
  predicate Answered(moves: seq<Move>, i: nat) {
    forall k :: 0 <= k < |moves| && moves[k].Advance? && moves[k].thread == i ==> moves[k].answers
  }

  /** How often thread `i` has been scheduled. */
  function Turns(f: Fleet, moves: seq<Move>, i: nat): nat
    requires WellFormed(f)
  {
    if moves == [] then 0
    else
      Turns(f, DropLast(moves), i)
      + (if Last(moves).Advance? && Last(moves).thread == i && i < |Run(f, DropLast(moves)).threads| then 1 else 0)
  }

  /** An upper bound on the steps a thread has left. */
  function Left(n: nat, t: Thread): nat {
    match t
    case Calling(_, _) => n + 5
    case Admitted(_, _) => n + 4
    case Working(_, _, _, _, receipts) => if |receipts| <= n then n - |receipts| + 3 else 3
    case Leaving(_, _, _) => 2
    case Discarded(_, _, _) => 1
    case Ended(_, _, _) => 0
  }

  predicate OnCourse(t: Thread) {
    match t
    case Calling(_, _) => true
    case Admitted(_, _) => true
    case Working(_, _, _, _, _) => true
    case Leaving(_, _, o) => o.Completed?
    case Discarded(_, _, o) => o.Completed?
    case Ended(_, _, o) => o.Completed?
  }

  lemma {:induction false} UnfinishedUpdate(threads: seq<Thread>, i: nat, t: Thread)
    requires i < |threads|
    ensures Unfinished(threads[i := t]) == Unfinished(threads) - (if threads[i].Ended? then 0 else 1) + (if t.Ended? then 0 else 1)
  {
    if i == |threads| - 1 {
      assert DropLast(threads[i := t]) == DropLast(threads);
    } else {
      UnfinishedUpdate(DropLast(threads), i, t);
      assert DropLast(threads[i := t]) == DropLast(threads)[i := t];
    }
  }

  /** A step moves one thread, keeps its mission, and never wakes it. */
  lemma StepShape(f: Fleet, i: nat, answers: bool)
    requires WellFormed(f) && i < |f.threads|
    ensures var f' := Step(f, i, answers);
            && f'.maxInflight == f.maxInflight && f'.threads == f.threads[i := f'.threads[i]]
            && f'.threads[i].mission == f.threads[i].mission && f'.threads[i].fields == f.threads[i].fields
            && (f.threads[i].Ended? ==> f'.threads[i].Ended?)
            && (!f.threads[i].Ended? ==> Left(|f.order|, f'.threads[i]) < Left(|f.order|, f.threads[i]))
  {
    hide Turn, Finished;
  }

  ghost predicate PoolOk(f: Fleet)
    requires WellFormed(f)
  {
    FleetOk(f) && Unfinished(f.threads) <= f.maxInflight && MissionsDistinct(f.threads)
  }

  lemma PoolSteps(f: Fleet, i: nat, answers: bool)
    requires WellFormed(f) && PoolOk(f) && i < |f.threads|
    ensures PoolOk(Step(f, i, answers))
  {
    hide FleetOk, Step, Unfinished;
    StepKeeps(f, i, answers);
    StepShape(f, i, answers);
    UnfinishedUpdate(f.threads, i, Step(f, i, answers).threads[i]);
  }

  lemma PoolSubmits(f: Fleet, mission: string, fields: map<string, string>)
    requires WellFormed(f) && PoolOk(f) && Unfinished(f.threads) < f.maxInflight
    requires forall j :: 0 <= j < |f.threads| ==> f.threads[j].mission != mission
    ensures PoolOk(f.(threads := f.threads + [Calling(mission, fields)]))
  {
    hide FleetOk;
    SubmitKeeps(f, mission, fields);
    DropLastAppend(f.threads, Calling(mission, fields));
  }

  lemma {:induction false} PoolRuns(f: Fleet, moves: seq<Move>)
    requires WellFormed(f) && PoolOk(f) && Pooled(f, moves)
    ensures PoolOk(Run(f, moves))
  {
    hide PoolOk, Step;
    if moves != [] {
      PoolRuns(f, DropLast(moves));
      var g := Run(f, DropLast(moves));
      match Last(moves)
      case Submit(mission, fields) => PoolSubmits(g, mission, fields);
      case Advance(i, answers) => if i < |g.threads| { PoolSteps(g, i, answers); }
    }
  }

  /** An answered step keeps a thread on course. */
  lemma CourseStep(f: Fleet, i: nat)
    requires WellFormed(f) && PoolOk(f) && i < |f.threads| && OnCourse(f.threads[i])
    ensures OnCourse(Step(f, i, true).threads[i])
  {
    hide Named, Held, Causal, After, Turn, Finished, Unfinished, Complete;
    var t := f.threads[i];
    if t.Calling? || t.Admitted? {
      PoolIsNeverRefused(f, i, true);
    } else if t.Working? {
      assert Faithful(f.roles, f.order, t);
      if |t.receipts| >= |f.order| {
        FinishedIsFaithful(f.roles, f.order, Initial(t.fields, t.mission), t.receipts);
      } else {
        TurnExtends(f.roles, f.order, f.generations[f.order[|t.receipts|]], t.mission, t.trace, t.fields, t.payload, t.receipts, true);
      }
    }
  }

  lemma {:induction false} StaysOnCourse(f: Fleet, moves: seq<Move>, i: nat)
    requires WellFormed(f) && PoolOk(f) && f.threads == [] && Pooled(f, moves) && Answered(moves, i)
    ensures i < |Run(f, moves).threads| ==> OnCourse(Run(f, moves).threads[i])
  {
    hide PoolOk, OnCourse;
    if moves != [] {
      StaysOnCourse(f, DropLast(moves), i);
      PoolRuns(f, DropLast(moves));
      var g := Run(f, DropLast(moves));
      match Last(moves)
      case Submit(mission, fields) => CallingIsOnCourse(mission, fields);
      case Advance(k, answers) =>
        if k < |g.threads| {
          assert moves[|moves| - 1] == Last(moves);
          StepThread(g, k, answers);
          if k == i {
            CourseStep(g, i);
          }
        }
    }
  }

  lemma CallingIsOnCourse(mission: string, fields: map<string, string>)
    ensures OnCourse(Calling(mission, fields))
  {
  }

  lemma StepThread(f: Fleet, k: nat, answers: bool)
    requires WellFormed(f) && k < |f.threads|
    ensures |Step(f, k, answers).threads| == |f.threads|
    ensures forall j :: 0 <= j < |f.threads| && j != k ==> Step(f, k, answers).threads[j] == f.threads[j]
  {
    hide Step, Left;
    StepShape(f, k, answers);
  }

  lemma {:induction false} TurnsRunDown(f: Fleet, moves: seq<Move>, i: nat)
    requires WellFormed(f) && f.threads == [] && i < |Run(f, moves).threads|
    ensures var t := Run(f, moves).threads[i]; t.Ended? || Left(|f.order|, t) + Turns(f, moves, i) <= |f.order| + 5
  {
    hide Step, Left;
    var g := Run(f, DropLast(moves));
    match Last(moves)
    case Submit(mission, fields) =>
      if i < |g.threads| {
        TurnsRunDown(f, DropLast(moves), i);
      } else {
        NotScheduledYet(f, DropLast(moves), i);
        CallingLeft(|f.order|, mission, fields);
      }
    case Advance(k, answers) =>
      if k < |g.threads| {
        StepShape(g, k, answers);
      }
      TurnsRunDown(f, DropLast(moves), i);
  }

  lemma CallingLeft(n: nat, mission: string, fields: map<string, string>)
    ensures Left(n, Calling(mission, fields)) == n + 5
  {
  }

  lemma {:induction false} NotScheduledYet(f: Fleet, moves: seq<Move>, i: nat)
    requires WellFormed(f) && i >= |Run(f, moves).threads|
    ensures Turns(f, moves, i) == 0
  {
    hide Step, Left;
    if moves != [] {
      var g := Run(f, DropLast(moves));
      if Last(moves).Advance? && Last(moves).thread < |g.threads| {
        StepThread(g, Last(moves).thread, Last(moves).answers);
      }
      NotScheduledYet(f, DropLast(moves), i);
    }
  }

  /**
   execute_many on an idle fleet: every mission whose workers answer, scheduled
   often enough, completes with the payload and receipts of running alone,
   whatever becomes of the others.
   */
  lemma ExecuteManyCompletes(f: Fleet, moves: seq<Move>, i: nat)
    requires WellFormed(f) && f.threads == [] && f.free == f.maxInflight && f.active == {} && f.maxObserved <= f.maxInflight
    requires Pooled(f, moves) && Answered(moves, i)
    requires i < |Run(f, moves).threads| && Turns(f, moves, i) >= |f.order| + 5
    ensures var t := Run(f, moves).threads[i];
            t.Ended? && t.outcome.Completed? && FaithfulOutcome(f.roles, f.order, Initial(t.fields, t.mission), t.outcome)
  {
    hide Step, Pooled, Answered, Turns, FaithfulOutcome, Named, Held;
    IdleIsOk(f);
    StaysOnCourse(f, moves, i);
    TurnsRunDown(f, moves, i);
    FleetStaysOk(f, moves);
    assert Faithful(f.roles, f.order, Run(f, moves).threads[i]);
  }

  // ---------------------------------------------------------------- the fleet

  class SharedFleet {
    const roles: Roles
    const order: seq<Ocs>
    const generations: map<Ocs, nat>
    const maxInflight: nat
    var free: int
    var active: set<string>
    var maxObserved: nat
    var issued: nat

    predicate Valid()
      reads this
    {
      Cast(roles, order) && (forall o :: o in order ==> o in generations) && 0 <= free <= maxInflight
    }

    constructor (roles: Roles, order: seq<Ocs>, generations: map<Ocs, nat>, maxInflight: nat)
      requires Cast(roles, order) && (forall o :: o in order ==> o in generations)
      ensures Valid() && free == maxInflight && active == {} && this.roles == roles && this.order == order && this.maxInflight == maxInflight
    {
      this.roles, this.order, this.generations, this.maxInflight := roles, order, generations, maxInflight;
      free, active, maxObserved, issued := maxInflight, {}, 0, 0;
    }

    /** execute_mission; `answers` says which workers answer. */
    method ExecuteMission(fields: map<string, string>, mission: string, answers: seq<bool>) returns (o: Outcome)
      requires Valid() && |answers| == |order|
      modifies this
      ensures Valid() && free == old(free) && active == old(active)
      ensures old(free) == 0 ==> o == Refused(Backpressure)
      ensures old(free) > 0 && mission in old(active) ==> o == Refused(DuplicateMission)
      ensures old(free) > 0 && mission !in old(active) ==>
                if false in answers then o == Failed(WorkerNotActive)
                else o.Completed? && RunAll(roles, order, Initial(fields, mission)) == Ok(o.payload)
                     && |o.receipts| == |order| && Causal(roles, order, Initial(fields, mission), o.receipts)
    {
      if free <= 0 {
        return Refused(Backpressure);
      }
      free := free - 1;
      if mission in active {
        free := free + 1;
        return Refused(DuplicateMission);
      }
      active := active + {mission};
      if |active| > maxObserved {
        maxObserved := |active|;
      }
      o := RunMission(fields, mission, answers);
      active := active - {mission};
      free := free + 1;
    }

    /** The body of the try block. */
    method RunMission(fields: map<string, string>, mission: string, answers: seq<bool>) returns (o: Outcome)
      requires Valid() && |answers| == |order|
      modifies this`issued
      ensures if false in answers then o == Failed(WorkerNotActive)
              else o.Completed? && RunAll(roles, order, Initial(fields, mission)) == Ok(o.payload)
                   && |o.receipts| == |order| && Causal(roles, order, Initial(fields, mission), o.receipts)
    {
      hide After, Turn, Causal, Finished, RunAll, Complete;
      var trace := issued;
      issued := issued + 1;
      var payload := Initial(fields, mission);
      var receipts: seq<Receipt> := [];
      NoReceipts(roles, order, payload);
      for k := 0 to |order|
        invariant |receipts| == k && Causal(roles, order, Initial(fields, mission), receipts)
        invariant payload == After(roles, order, Initial(fields, mission), k)
        invariant forall j :: 0 <= j < k ==> answers[j]
      {
        TurnExtends(roles, order, generations[order[k]], mission, trace, fields, payload, receipts, answers[k]);
        var turn := Turn(roles, order, generations[order[k]], mission, trace, payload, receipts, answers[k]);
        if turn.Err? {
          return Failed(turn.error);
        }
        receipts := receipts + [turn.value];
        payload := turn.value.output;
      }
      FinishedIsFaithful(roles, order, Initial(fields, mission), receipts);
      return Finished(roles, order, payload, receipts);
    }
  }

  lemma NoReceipts(roles: Roles, order: seq<Ocs>, start: Payload)
    requires Cast(roles, order) && start.contributions == map[]
    ensures Causal(roles, order, start, []) && After(roles, order, start, 0) == start
  {
    StartIs(roles, order, start);
  }
}
