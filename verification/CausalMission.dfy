/**
 The causal mission of app/distributed_runtime/causal_mission.py over an
 arbitrary order of actors: each adds its contribution once, and every receipt
 digests exactly what the one before it produced.  A digest is the term digested.
 */
module CausalMission {
  import opened Prelude

  type Ocs = string

  /** SPECIALTY_CONTRIBUTION and the declared specialty of a profile. */
  datatype Role = Role(transformation: string, specialty: string, result: string)

  type Roles = map<Ocs, Role>

  /** A payload: its plain fields, and the contributions so far. */
  datatype Payload = Payload(fields: map<string, string>, contributions: map<Ocs, Role>)

  datatype Hash = HashOf(payload: Payload)

  datatype Error =
    | UnknownOcs | DuplicateContribution | TargetMismatch | StaleGeneration | PayloadHashMismatch | PredecessorHashBreak
    | WorkerNotActive | Incomplete | Backpressure | DuplicateMission | AdvanceRace | NotStarted | TooShort | Drift

  datatype Result<+T> = Ok(value: T) | Err(error: Error)

  /** Message ids are unique per run and position. */
  datatype MessageId = FounderRoot | Message(trace: nat, index: nat)

  datatype Envelope = Envelope(
    message: MessageId, mission: string, target: Ocs, expectedGeneration: nat, payload: Payload,
    payloadHash: Hash, predecessorHash: Hash, causation: MessageId, correlation: nat, trace: nat)

  datatype Receipt = Receipt(
    message: MessageId, mission: string, target: Ocs, generation: nat, specialty: string, transformation: string, key: string,
    inputHash: Hash, outputHash: Hash, output: Payload, causation: MessageId, correlation: nat, trace: nat)

  // ---------------------------------------------------------------- one actor

  /** _transform. */
  function Transform(roles: Roles, ocs: Ocs, p: Payload): Result<Payload> {
    if ocs !in roles then Err(UnknownOcs)
    else if ocs in p.contributions then Err(DuplicateContribution)
    else Ok(Payload(p.fields["last_contributor" := ocs], p.contributions[ocs := roles[ocs]]))
  }

  /** The checks of a worker, and its receipt. */
  function Process(roles: Roles, ocs: Ocs, generation: nat, e: Envelope): Result<Receipt> {
    if e.target != ocs then Err(TargetMismatch)
    else if e.expectedGeneration != generation then Err(StaleGeneration)
    else if HashOf(e.payload) != e.payloadHash then Err(PayloadHashMismatch)
    else if e.predecessorHash != e.payloadHash then Err(PredecessorHashBreak)
    else
      match Transform(roles, ocs, e.payload)
      case Err(x) => Err(x)
      case Ok(output) =>
        Ok(Receipt(e.message, e.mission, ocs, generation, roles[ocs].specialty, roles[ocs].transformation, roles[ocs].result,
                   e.payloadHash, HashOf(output), output, e.causation, e.correlation, e.trace))
  }

  /** mission_has_all_specialty_contributions. */
  predicate Complete(roles: Roles, order: seq<Ocs>, contributions: map<Ocs, Role>) {
    && contributions.Keys == (set o | o in order)
    && (forall o :: o in order && o in roles && o in contributions ==>
          contributions[o].specialty == roles[o].specialty && contributions[o].result == roles[o].result)
  }

  // ---------------------------------------------------------------- all actors in turn

  predicate Distinct(order: seq<Ocs>) {
    forall i, j :: 0 <= i < j < |order| ==> order[i] != order[j]
  }

  predicate Cast(roles: Roles, order: seq<Ocs>) {
    Distinct(order) && forall o :: o in order ==> o in roles
  }

  /** The payload a mission starts from. */
  function Initial(fields: map<string, string>, mission: string): Payload {
    Payload(fields["mission_id" := mission], map[])
  }

  /** The payload after every actor of `order` has contributed. */
  function RunAll(roles: Roles, order: seq<Ocs>, p: Payload): Result<Payload> {
    if order == [] then Ok(p)
    else
      match RunAll(roles, DropLast(order), p)
      case Err(x) => Err(x)
      case Ok(q) => Transform(roles, Last(order), q)
  }

  /** What a set of actors contributes. */
  function Contributions(roles: Roles, order: seq<Ocs>): map<Ocs, Role>
    requires forall o :: o in order ==> o in roles
  {
    map o | o in order :: roles[o]
  }

  lemma ContributionsGrow(roles: Roles, order: seq<Ocs>)
    requires Cast(roles, order) && order != []
    ensures Cast(roles, DropLast(order)) && Last(order) !in Contributions(roles, DropLast(order))
    ensures Contributions(roles, order) == Contributions(roles, DropLast(order))[Last(order) := roles[Last(order)]]
  {
    assert order == DropLast(order) + [Last(order)];
  }

  /** Started without contributions, the run succeeds, and contributes exactly the roles of its actors. */
  lemma {:induction false} RunAllContributes(roles: Roles, order: seq<Ocs>, fields: map<string, string>)
    requires Cast(roles, order)
    ensures RunAll(roles, order, Payload(fields, map[])).Ok?
    ensures var q := RunAll(roles, order, Payload(fields, map[])).value;
            && q.contributions == Contributions(roles, order)
            && q.fields == (if order == [] then fields else fields["last_contributor" := Last(order)])
  {
    hide Contributions;
    if order == [] {
      NoContributions(roles);
    } else {
      ContributionsGrow(roles, order);
      RunAllContributes(roles, DropLast(order), fields);
      var q := RunAll(roles, DropLast(order), Payload(fields, map[])).value;
      assert q.fields["last_contributor" := Last(order)] == fields["last_contributor" := Last(order)];
    }
  }

  lemma NoContributions(roles: Roles)
    ensures Contributions(roles, []) == map[]
  {
  }

  lemma RunAllCompletes(roles: Roles, order: seq<Ocs>, fields: map<string, string>)
    requires Cast(roles, order)
    ensures var r := RunAll(roles, order, Payload(fields, map[])); r.Ok? && Complete(roles, order, r.value.contributions)
  {
    RunAllContributes(roles, order, fields);
  }

  /** The payload after the first `k` actors. */
  function After(roles: Roles, order: seq<Ocs>, start: Payload, k: nat): Payload
    requires Cast(roles, order) && k <= |order| && start.contributions == map[]
  {
    RunAllContributes(roles, order[..k], start.fields);
    RunAll(roles, order[..k], start).value
  }

  lemma AfterStep(roles: Roles, order: seq<Ocs>, start: Payload, k: nat)
    requires Cast(roles, order) && k < |order| && start.contributions == map[]
    ensures Transform(roles, order[k], After(roles, order, start, k)) == Ok(After(roles, order, start, k + 1))
    ensures After(roles, order, start, k).fields.Keys >= start.fields.Keys
    ensures forall f :: f in start.fields && f != "last_contributor" ==> After(roles, order, start, k).fields[f] == start.fields[f]
  {
    RunAllContributes(roles, order[..k], start.fields);
    RunAllContributes(roles, order[..k + 1], start.fields);
    assert DropLast(order[..k + 1]) == order[..k] && Last(order[..k + 1]) == order[k];
  }

  // ---------------------------------------------------------------- receipts

  /** One receipt per actor, in order; each digests the payload the one before it produced. */
  predicate Causal(roles: Roles, order: seq<Ocs>, start: Payload, receipts: seq<Receipt>)
    requires Cast(roles, order) && |receipts| <= |order| && start.contributions == map[]
  {
    forall k :: 0 <= k < |receipts| ==>
      && receipts[k].target == order[k]
      && receipts[k].inputHash == HashOf(After(roles, order, start, k))
      && receipts[k].output == After(roles, order, start, k + 1)
      && receipts[k].outputHash == HashOf(receipts[k].output)
      && receipts[k].specialty == roles[order[k]].specialty
  }

  /** Receipts of one run hang together: each input is the output before it. */
  predicate HashChain(receipts: seq<Receipt>) {
    forall k :: 0 < k < |receipts| ==> receipts[k].inputHash == receipts[k - 1].outputHash
  }

  lemma CausalChains(roles: Roles, order: seq<Ocs>, start: Payload, receipts: seq<Receipt>)
    requires Cast(roles, order) && |receipts| <= |order| && start.contributions == map[] && Causal(roles, order, start, receipts)
    ensures HashChain(receipts)
    ensures receipts != [] ==> receipts[0].inputHash == HashOf(start)
  {
    hide After;
    assert order[..0] == [];
    StartIs(roles, order, start);
  }

  lemma StartIs(roles: Roles, order: seq<Ocs>, start: Payload)
    requires Cast(roles, order) && start.contributions == map[]
    ensures After(roles, order, start, 0) == start
  {
  }

  // ---------------------------------------------------------------- ablation

  /** The contributions that the receipts carry, leaving one actor out. */
  function Ablated(receipts: seq<Receipt>, removed: Ocs): map<Ocs, Role> {
    if receipts == [] then map[]
    else
      var r := Last(receipts);
      var rest := Ablated(DropLast(receipts), removed);
      if r.target == removed || r.target !in r.output.contributions then rest else rest[r.target := r.output.contributions[r.target]]
  }

  lemma {:induction false} AblatedKeys(receipts: seq<Receipt>, removed: Ocs, order: seq<Ocs>, roles: Roles)
    requires |receipts| <= |order|
    requires forall k :: 0 <= k < |receipts| ==>
      && receipts[k].target == order[k] && order[k] in roles
      && order[k] in receipts[k].output.contributions && receipts[k].output.contributions[order[k]] == roles[order[k]]
    ensures Ablated(receipts, removed).Keys == (set o | o in order[..|receipts|] && o != removed)
    ensures forall o :: o in Ablated(receipts, removed) ==> o in roles && Ablated(receipts, removed)[o] == roles[o]
  {
    if receipts != [] {
      AblatedKeys(DropLast(receipts), removed, order, roles);
      assert order[..|receipts|] == order[..|receipts| - 1] + [order[|receipts| - 1]];
    }
  }

  lemma ContributedBy(roles: Roles, order: seq<Ocs>, start: Payload, k: nat)
    requires Cast(roles, order) && k < |order| && start.contributions == map[]
    ensures var c := After(roles, order, start, k + 1).contributions; order[k] in c && c[order[k]] == roles[order[k]]
  {
    RunAllContributes(roles, order[..k + 1], start.fields);
    assert order[..k + 1][k] == order[k];
  }

  /** Receipts of a whole run are complete exactly when nobody's contribution is left out. */
  lemma AblationIsDetected(roles: Roles, order: seq<Ocs>, start: Payload, receipts: seq<Receipt>, removed: Ocs)
    requires Cast(roles, order) && |receipts| == |order| && start.contributions == map[] && Causal(roles, order, start, receipts)
    ensures Complete(roles, order, Ablated(receipts, removed)) <==> removed !in order
  {
    hide After;
    forall k | 0 <= k < |receipts|
      ensures order[k] in receipts[k].output.contributions && receipts[k].output.contributions[order[k]] == roles[order[k]]
    {
      ContributedBy(roles, order, start, k);
    }
    AblatedKeys(receipts, removed, order, roles);
    assert order[..|receipts|] == order;
    if removed in order {
      assert removed in (set o | o in order) && removed !in Ablated(receipts, removed).Keys;
    }
  }
}
