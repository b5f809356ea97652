/**
 The Trial 2 mission of app/single_surface_trial/trial2_store.py with the checks
 of trial2_integrity.py: bindings and their epochs, handoffs along the listed
 routes, one-shot acceptance by compare-and-swap, and idempotent effects.

 The state is that of one mission.  Ids that the source derives by hashing are
 the terms they are derived from.
 */
module Trial2 {
  import opened Prelude

  type Ocs = string
  type Instance = string

  const DEDALA: Ocs := "DÉDALA"
  const SOFIA: Ocs := "SOFIA"
  const SYNESIS: Ocs := "SÝNESIS"

  datatype Route = DedalaToSofia | SofiaToSynesis | ImplementerToSynesis | Unlisted

  /** ROUTES: who may hand over, and to whom.  The implementer's route names no source. */
  function RouteSource(r: Route): Option<Ocs> {
    match r
    case DedalaToSofia => Some(DEDALA)
    case SofiaToSynesis => Some(SOFIA)
    case ImplementerToSynesis => None
    case Unlisted => None
  }

  function RouteTarget(r: Route): Ocs {
    if r.DedalaToSofia? then SOFIA else SYNESIS
  }

  datatype Status = Bound | Active | Quiescent

  datatype Binding = Binding(
    ocs: Ocs, generation: nat, epoch: nat, authority: string, role: string, status: Status, checkpoint: Option<CheckpointId>)

  datatype CheckpointId = CheckpointOf(instance: Instance, sequence: nat, state: string)

  datatype HandoffId = HandoffOf(route: Route, source: Instance, target: Instance, checkpoint: CheckpointId, envelope: string)

  datatype Handoff = Handoff(sourceOcs: Ocs, targetOcs: Ocs, accepted: bool)

  datatype Effect = Effect(payload: string, instance: Instance, epoch: nat)

  datatype Entry = Entry(value: string, instance: Instance, epoch: nat)

  datatype Receipt =
    | BindingReceipt(instance: Instance)
    | CheckpointReceipt(checkpoint: CheckpointId)
    | EnvelopeReceipt(handoff: HandoffId)
    | AcceptanceReceipt(handoff: HandoffId)
    | EffectReceipt(key: string)

  datatype Mission = Mission(
    active: Option<Instance>, activeOcs: Ocs, currentHandoff: Option<HandoffId>, budget: nat, steps: nat, handoffs: nat, version: nat)

  datatype Trial = Trial(
    mission: Mission, bindings: map<Instance, Binding>, fencing: map<Ocs, nat>, checkpoints: seq<CheckpointId>,
    handoffs: map<HandoffId, Handoff>, receipts: seq<Receipt>, effects: map<string, Effect>, entries: map<string, Entry>)

  datatype Error =
    | Ambiguous | IntegrityRejected | NotActive | UnlistedRoute | SourceMissing | SourceMismatch | TargetMismatch
    | BindingMissing | CheckpointRequired | TargetNotBound | UnknownHandoff | BlindRetry | SourceNoLongerActive | CheckpointChanged
    | BudgetExhausted | ConcurrentConflict | Unauthorized | StaleEpoch | AuthorityMismatch | PayloadMismatch
    | UnknownState | NoCheckpoint | FencingFailure | AuthorityFailure | ReceiptMissing

  datatype Result<+T> = Ok(value: T) | Err(error: Error)

  /** create_mission; the budget is at least one. */
  function NewTrial(budget: nat): Trial
    requires budget >= 1
  {
    Trial(Mission(None, "", None, budget, 0, 0, 1), map[], map[], [], map[], [], map[], map[])
  }

  function Epoch(t: Trial, ocs: Ocs): nat {
    if ocs in t.fencing then t.fencing[ocs] else 0
  }

  predicate IsTop(bindings: map<Instance, Binding>, ocs: Ocs, g: nat) {
    && (forall i :: i in bindings && bindings[i].ocs == ocs ==> bindings[i].generation <= g)
    && (g > 0 ==> exists i :: i in bindings && bindings[i].ocs == ocs && bindings[i].generation == g)
  }

  /** MAX(generation) over the bindings of the OCS, 0 when it has none. */
  ghost function TopGeneration(bindings: map<Instance, Binding>, ocs: Ocs): (g: nat)
    ensures IsTop(bindings, ocs, g)
    decreases |bindings|
  {
    if bindings == map[] then 0
    else
      var i :| i in bindings;
      var rest := bindings - {i};
      assert rest.Keys == bindings.Keys - {i} && |rest.Keys| < |bindings.Keys|;
      var g := TopGeneration(rest, ocs);
      assert forall j :: j in bindings ==> j == i || (j in rest && rest[j] == bindings[j]);
      assert forall j :: j in rest ==> j in bindings && rest[j] == bindings[j];
      if bindings[i].ocs == ocs && bindings[i].generation > g then bindings[i].generation
      else
        assert IsTop(rest, ocs, g);
        g
  }

  // ---------------------------------------------------------------- the operations

  datatype BindCmd = BindCmd(ocs: Ocs, instance: Instance, authority: string, role: string, activate: bool)

  /** bind. */
  ghost function Bind(t: Trial, c: BindCmd): Result<Trial> {
    if c.ocs == "" || c.instance == "" || c.authority == "" || c.role == "" then Err(Ambiguous)
    else if c.instance in t.bindings then Err(IntegrityRejected)
    else
      var epoch := Epoch(t, c.ocs) + 1;
      var generation := if c.ocs in t.fencing then TopGeneration(t.bindings, c.ocs) + 1 else 1;
      var active := c.activate && t.mission.active.None?;
      var b := Binding(c.ocs, generation, epoch, c.authority, c.role, if active then Active else Bound, None);
      Ok(t.(fencing := t.fencing[c.ocs := epoch],
            bindings := t.bindings[c.instance := b],
            mission := if active then t.mission.(active := Some(c.instance), activeOcs := c.ocs, version := t.mission.version + 1)
                       else t.mission,
            receipts := t.receipts + [BindingReceipt(c.instance)]))
  }

  /** checkpoint. */
  function Checkpoint(t: Trial, instance: Instance, state: string): Result<Trial> {
    if t.mission.active != Some(instance) then Err(NotActive)
    else if instance !in t.bindings then Err(BindingMissing)
    else if t.bindings[instance].status != Active then Err(NotActive)
    else
      var id := CheckpointOf(instance, |t.checkpoints| + 1, state);
      Ok(t.(checkpoints := t.checkpoints + [id],
            bindings := t.bindings[instance := t.bindings[instance].(checkpoint := Some(id))],
            receipts := t.receipts + [CheckpointReceipt(id)]))
  }

  datatype IssueCmd = IssueCmd(route: Route, target: Instance, targetOcs: Ocs, envelope: string)

  /** issue_handoff. */
  function Issue(t: Trial, c: IssueCmd): Result<(Trial, HandoffId)> {
    if c.route.Unlisted? then Err(UnlistedRoute)
    else if t.mission.active.None? || t.mission.active.value == "" || t.mission.activeOcs == "" then Err(SourceMissing)
    else if RouteSource(c.route).Some? && RouteSource(c.route).value != t.mission.activeOcs then Err(SourceMismatch)
    else if RouteTarget(c.route) != c.targetOcs then Err(TargetMismatch)
    else
      var source := t.mission.active.value;
      if source !in t.bindings || c.target !in t.bindings then Err(BindingMissing)
      else if t.bindings[source].checkpoint.None? then Err(CheckpointRequired)
      else if t.bindings[c.target].ocs != c.targetOcs || t.bindings[c.target].status != Bound then Err(TargetNotBound)
      else
        var id := HandoffOf(c.route, source, c.target, t.bindings[source].checkpoint.value, c.envelope);
        if id in t.handoffs then Err(IntegrityRejected)
        else Ok((t.(handoffs := t.handoffs[id := Handoff(t.mission.activeOcs, c.targetOcs, false)],
                    mission := t.mission.(currentHandoff := Some(id)),
                    receipts := t.receipts + [EnvelopeReceipt(id)]), id))
  }

  /** What accept_handoff has read when it is about to claim the mission row. */
  datatype Claim = Claim(handoff: HandoffId, row: Handoff, mission: Mission)

  /** accept_handoff up to the compare-and-swap. */
  function ReadHandoff(t: Trial, id: HandoffId): Result<Claim> {
    if id !in t.handoffs then Err(UnknownHandoff)
    else if t.handoffs[id].accepted then Err(BlindRetry)
    else if t.mission.active != Some(id.source) then Err(SourceNoLongerActive)
    else if id.source !in t.bindings || id.target !in t.bindings then Err(BindingMissing)
    else if t.bindings[id.source].checkpoint != Some(id.checkpoint) then Err(CheckpointChanged)
    else if t.bindings[id.target].status != Bound then Err(TargetNotBound)
    else if t.mission.steps + 1 > t.mission.budget then Err(BudgetExhausted)
    else Ok(Claim(id, t.handoffs[id], t.mission))
  }

  /** UPDATE missions .. WHERE version = .. AND active_instance_id = .., and what follows it in the transaction. */
  function ClaimHandoff(t: Trial, c: Claim): Result<Trial> {
    var id := c.handoff;
    if t.mission.version != c.mission.version || t.mission.active != Some(id.source) then Err(ConcurrentConflict)
    else if id.source !in t.bindings || id.target !in t.bindings || id !in t.handoffs then Err(BindingMissing)
    else
      var m := t.mission.(active := Some(id.target), activeOcs := c.row.targetOcs, currentHandoff := Some(id),
                          steps := c.mission.steps + 1, handoffs := c.mission.handoffs + 1, version := c.mission.version + 1);
      var quiesced := t.bindings[id.source := t.bindings[id.source].(status := Quiescent)];
      Ok(t.(mission := m,
            bindings := quiesced[id.target := quiesced[id.target].(status := Active)],
            handoffs := t.handoffs[id := t.handoffs[id].(accepted := true)],
            receipts := t.receipts + [AcceptanceReceipt(id)]))
  }

  datatype EffectCmd = EffectCmd(ocs: Ocs, instance: Instance, epoch: nat, authority: string, key: string, payload: string)

  /** apply_synthetic_effect, with the number of mutations it reports. */
  function ApplyEffect(t: Trial, c: EffectCmd): Result<(Trial, nat)> {
    if t.mission.active != Some(c.instance) || t.mission.activeOcs != c.ocs then Err(Unauthorized)
    else if c.instance !in t.bindings then Err(BindingMissing)
    else if t.bindings[c.instance].epoch != c.epoch then Err(StaleEpoch)
    else if t.bindings[c.instance].authority != c.authority then Err(AuthorityMismatch)
    else if c.key in t.effects then
      if t.effects[c.key].payload != c.payload then Err(PayloadMismatch) else Ok((t, 0))
    else Ok((t.(effects := t.effects[c.key := Effect(c.payload, c.instance, c.epoch)],
                receipts := t.receipts + [EffectReceipt(c.key)]), 1))
  }

  datatype WriteCmd = WriteCmd(ocs: Ocs, instance: Instance, epoch: nat, namespaceOk: bool, key: string, value: string)

  /** write_state: a refused write reports zero and raises nothing. */
  function WriteState(t: Trial, c: WriteCmd): (Trial, nat) {
    if t.mission.active != Some(c.instance) || t.mission.activeOcs != c.ocs then (t, 0)
    else if !c.namespaceOk then (t, 0)
    else if c.instance !in t.bindings || t.bindings[c.instance].epoch != c.epoch then (t, 0)
    else (t.(entries := t.entries[c.key := Entry(c.value, c.instance, c.epoch)]), 1)
  }

  /** recover_snapshot: the checks on a restart. */
  function Recover(t: Trial, authorized: bool): Result<(Instance, nat)> {
    if t.mission.active.None? || t.mission.active.value == "" || t.mission.activeOcs == "" then Err(UnknownState)
    else
      var instance := t.mission.active.value;
      if instance !in t.bindings then Err(BindingMissing)
      else
        var b := t.bindings[instance];
        if b.status != Active then Err(UnknownState)
        else if b.checkpoint.None? then Err(NoCheckpoint)
        else if t.mission.activeOcs !in t.fencing || t.fencing[t.mission.activeOcs] != b.epoch then Err(FencingFailure)
        else if !authorized then Err(AuthorityFailure)
        else if t.mission.currentHandoff.Some? && t.mission.currentHandoff.value in t.handoffs
                && t.handoffs[t.mission.currentHandoff.value].accepted
                && AcceptanceReceipt(t.mission.currentHandoff.value) !in t.receipts then Err(ReceiptMissing)
        else Ok((instance, b.epoch))
  }

  // ---------------------------------------------------------------- runs

  /** Accepts in flight have read the mission but not claimed it yet. */
  datatype System = System(trial: Trial, claims: seq<Claim>, mutations: nat)

  datatype Move =
    | DoBind(bind: BindCmd)
    | DoCheckpoint(instance: Instance, state: string)
    | DoIssue(issue: IssueCmd)
    | DoRead(handoff: HandoffId)
    | DoClaim(claim: nat)
    | DoEffect(effect: EffectCmd)
    | DoWrite(write: WriteCmd)

  ghost function Step(s: System, m: Move): System {
    match m
    case DoBind(c) => (match Bind(s.trial, c) case Ok(t) => s.(trial := t) case Err(_) => s)
    case DoCheckpoint(i, state) => (match Checkpoint(s.trial, i, state) case Ok(t) => s.(trial := t) case Err(_) => s)
    case DoIssue(c) => (match Issue(s.trial, c) case Ok(r) => s.(trial := r.0) case Err(_) => s)
    case DoRead(id) => (match ReadHandoff(s.trial, id) case Ok(c) => s.(claims := s.claims + [c]) case Err(_) => s)
    case DoClaim(k) =>
      if k >= |s.claims| then s
      else (match ClaimHandoff(s.trial, s.claims[k]) case Ok(t) => s.(trial := t) case Err(_) => s)
    case DoEffect(c) =>
      (match ApplyEffect(s.trial, c) case Ok(r) => s.(trial := r.0, mutations := s.mutations + r.1) case Err(_) => s)
    case DoWrite(c) => s.(trial := WriteState(s.trial, c).0)
  }

  ghost function Run(s: System, moves: seq<Move>): System {
    if moves == [] then s else Step(Run(s, DropLast(moves)), Last(moves))
  }

  function Start(budget: nat): System
    requires budget >= 1
  {
    System(NewTrial(budget), [], 0)
  }

  // ---------------------------------------------------------------- what a mission keeps

  /** The accepted handoffs, in the order of their receipts. */
  function Path(receipts: seq<Receipt>): seq<HandoffId> {
    if receipts == [] then []
    else Path(DropLast(receipts)) + (if Last(receipts).AcceptanceReceipt? then [Last(receipts).handoff] else [])
  }

  lemma PathGrows(receipts: seq<Receipt>, r: Receipt)
    ensures Path(receipts + [r]) == Path(receipts) + (if r.AcceptanceReceipt? then [r.handoff] else [])
    ensures !r.AcceptanceReceipt? ==> Path(receipts + [r]) == Path(receipts)
  {
    DropLastAppend(receipts, r);
  }

  /** Exactly the active instance is ACTIVE. */
  predicate ActiveOk(m: Mission, bs: map<Instance, Binding>) {
    && (forall i :: i in bs ==> i != "" && bs[i].ocs != "")
    && (forall i :: i in bs ==> (bs[i].status == Active <==> m.active == Some(i)))
    && (m.active.Some? ==> m.active.value in bs && m.activeOcs == bs[m.active.value].ocs)
  }

  ghost predicate HasGeneration(t: Trial, ocs: Ocs, g: nat) {
    exists i :: i in t.bindings && t.bindings[i].ocs == ocs && t.bindings[i].generation == g
  }

  /** Generation and epoch are the same number, no larger than the fencing epoch of the OCS. */
  ghost predicate InRange(bs: map<Instance, Binding>, fencing: map<Ocs, nat>) {
    forall i :: i in bs ==> bs[i].ocs in fencing && 1 <= bs[i].generation == bs[i].epoch <= fencing[bs[i].ocs]
  }

  ghost predicate OneEach(bs: map<Instance, Binding>) {
    forall i, j :: i in bs && j in bs && bs[i].ocs == bs[j].ocs && bs[i].epoch == bs[j].epoch ==> i == j
  }

  ghost predicate HasEpoch(bs: map<Instance, Binding>, ocs: Ocs, e: nat) {
    exists i :: i in bs && bs[i].ocs == ocs && bs[i].epoch == e
  }

  ghost predicate NoGaps(bs: map<Instance, Binding>, fencing: map<Ocs, nat>) {
    forall o, e :: o in fencing && 1 <= e <= fencing[o] ==> HasEpoch(bs, o, e)
  }

  /** Per OCS, the bindings carry the epochs 1 to the fencing epoch, each once. */
  ghost predicate EpochsOk(bs: map<Instance, Binding>, fencing: map<Ocs, nat>) {
    && InRange(bs, fencing) && OneEach(bs) && NoGaps(bs, fencing)
    && (forall o :: o in fencing ==> fencing[o] >= 1)
  }

  /** A handoff row names two bindings along a listed route. */
  predicate HandoffOk(bs: map<Instance, Binding>, id: HandoffId, h: Handoff, path: seq<HandoffId>) {
    && id.source in bs && id.target in bs && id.source != id.target
    && h.sourceOcs == bs[id.source].ocs
    && h.targetOcs == bs[id.target].ocs == RouteTarget(id.route)
    && !id.route.Unlisted?
    && (RouteSource(id.route).Some? ==> RouteSource(id.route).value == h.sourceOcs)
    && (h.accepted <==> id in path)
  }

  ghost predicate HandoffsOk(bs: map<Instance, Binding>, handoffs: map<HandoffId, Handoff>, path: seq<HandoffId>) {
    forall id :: id in handoffs ==> HandoffOk(bs, id, handoffs[id], path)
  }

  /** The handoffs chain from instance to instance; every source is left behind for good. */
  ghost predicate Chained(bs: map<Instance, Binding>, path: seq<HandoffId>) {
    && (forall k :: 0 < k < |path| ==> path[k].source == path[k - 1].target)
    && (forall k :: 0 <= k < |path| ==> path[k].source in bs && bs[path[k].source].status == Quiescent)
    && (forall j, k :: 0 <= j < k < |path| ==> path[j].source != path[k].source)
  }

  ghost predicate LeftOnPath(bs: map<Instance, Binding>, path: seq<HandoffId>) {
    forall i :: i in bs && bs[i].status == Quiescent ==> exists k :: 0 <= k < |path| && path[k].source == i
  }

  /** Both counters count the path, which ends at the active instance. */
  predicate Counted(m: Mission, path: seq<HandoffId>) {
    |path| == m.steps == m.handoffs <= m.budget && (path != [] ==> m.active == Some(Last(path).target))
  }

  ghost predicate Known(handoffs: map<HandoffId, Handoff>, path: seq<HandoffId>) {
    forall k :: 0 <= k < |path| ==> path[k] in handoffs
  }

  ghost predicate PathOk(t: Trial) {
    var path := Path(t.receipts);
    Chained(t.bindings, path) && LeftOnPath(t.bindings, path) && Counted(t.mission, path) && Known(t.handoffs, path)
  }

  ghost predicate TrialOk(t: Trial) {
    && ActiveOk(t.mission, t.bindings)
    && EpochsOk(t.bindings, t.fencing)
    && HandoffsOk(t.bindings, t.handoffs, Path(t.receipts))
    && PathOk(t)
  }

  /** As long as the version it read stands, what a claim has read still holds. */
  predicate ClaimOk(t: Trial, c: Claim) {
    && c.mission.version <= t.mission.version
    && c.handoff in t.handoffs && c.row.targetOcs == t.handoffs[c.handoff].targetOcs
    && (c.mission.version == t.mission.version ==>
          && c.mission.steps == t.mission.steps && c.mission.handoffs == t.mission.handoffs
          && t.mission.steps + 1 <= t.mission.budget
          && t.mission.active == Some(c.handoff.source)
          && c.handoff.target in t.bindings && t.bindings[c.handoff.target].status == Bound
          && !t.handoffs[c.handoff].accepted)
  }

  predicate ClaimsOk(t: Trial, claims: seq<Claim>) {
    forall k :: 0 <= k < |claims| ==> ClaimOk(t, claims[k])
  }

  ghost predicate SystemOk(s: System) {
    TrialOk(s.trial) && ClaimsOk(s.trial, s.claims) && s.mutations == |s.trial.effects|
  }

  /** What never goes back. */
  predicate Later(t: Trial, t': Trial) {
    && t.mission.version <= t'.mission.version
    && t.mission.budget == t'.mission.budget
    && (forall i :: i in t.bindings ==>
          && i in t'.bindings && t'.bindings[i].ocs == t.bindings[i].ocs && t'.bindings[i].epoch == t.bindings[i].epoch
          && (t.bindings[i].status == Quiescent ==> t'.bindings[i].status == Quiescent))
    && (forall id :: id in t.handoffs ==> id in t'.handoffs && (t.handoffs[id].accepted ==> t'.handoffs[id].accepted))
    && (forall k :: k in t.effects ==> k in t'.effects && t'.effects[k] == t.effects[k])
  }

  /** Nothing moved that a claim at the current version relies on. */
  predicate SameForClaims(t: Trial, t': Trial) {
    && t'.mission.version == t.mission.version && t'.mission.steps == t.mission.steps && t'.mission.handoffs == t.mission.handoffs
    && t'.mission.budget == t.mission.budget && t'.mission.active == t.mission.active
    && (forall i :: i in t.bindings ==> i in t'.bindings && t'.bindings[i].status == t.bindings[i].status)
    && (forall id :: id in t.handoffs ==> id in t'.handoffs && t'.handoffs[id] == t.handoffs[id])
  }

  lemma ClaimsKept(t: Trial, t': Trial, claims: seq<Claim>)
    requires ClaimsOk(t, claims) && SameForClaims(t, t')
    ensures ClaimsOk(t', claims)
  {
    forall k | 0 <= k < |claims| ensures ClaimOk(t', claims[k]) {
      assert ClaimOk(t, claims[k]);
    }
  }

  /** A higher version makes every claim in flight void. */
  lemma ClaimsVoid(t: Trial, t': Trial, claims: seq<Claim>)
    requires ClaimsOk(t, claims) && t.mission.version < t'.mission.version
    requires forall id :: id in t.handoffs ==> id in t'.handoffs && t'.handoffs[id].targetOcs == t.handoffs[id].targetOcs
    ensures ClaimsOk(t', claims)
  {
    forall k | 0 <= k < |claims| ensures ClaimOk(t', claims[k]) {
      assert ClaimOk(t, claims[k]);
    }
  }

  // ---------------------------------------------------------------- bind

  /** A binding with the next epoch of its OCS. */
  lemma NextEpoch(bs: map<Instance, Binding>, fencing: map<Ocs, nat>, i: Instance, b: Binding)
    requires EpochsOk(bs, fencing) && i !in bs
    requires b.generation == b.epoch == (if b.ocs in fencing then fencing[b.ocs] else 0) + 1
    ensures EpochsOk(bs[i := b], fencing[b.ocs := b.epoch])
  {
    NextInRange(bs, fencing, i, b);
    NextNoGaps(bs, fencing, i, b);
  }

  lemma NextInRange(bs: map<Instance, Binding>, fencing: map<Ocs, nat>, i: Instance, b: Binding)
    requires InRange(bs, fencing) && OneEach(bs) && i !in bs
    requires b.generation == b.epoch == (if b.ocs in fencing then fencing[b.ocs] else 0) + 1
    ensures InRange(bs[i := b], fencing[b.ocs := b.epoch]) && OneEach(bs[i := b])
  {
  }

  lemma NextNoGaps(bs: map<Instance, Binding>, fencing: map<Ocs, nat>, i: Instance, b: Binding)
    requires NoGaps(bs, fencing) && i !in bs
    requires b.epoch == (if b.ocs in fencing then fencing[b.ocs] else 0) + 1
    ensures NoGaps(bs[i := b], fencing[b.ocs := b.epoch])
  {
    var bs', fencing' := bs[i := b], fencing[b.ocs := b.epoch];
    forall o, e | o in fencing' && 1 <= e <= fencing'[o] ensures HasEpoch(bs', o, e) {
      if o == b.ocs && e == b.epoch {
        assert bs'[i] == b;
      } else {
        assert HasEpoch(bs, o, e);
        var j :| j in bs && bs[j].ocs == o && bs[j].epoch == e;
        assert bs'[j] == bs[j];
      }
    }
  }

  /** The highest generation is the fencing epoch. */
  lemma TopIsEpoch(t: Trial, ocs: Ocs)
    requires EpochsOk(t.bindings, t.fencing) && ocs in t.fencing
    ensures TopGeneration(t.bindings, ocs) == t.fencing[ocs]
  {
    hide TopGeneration;
    assert HasEpoch(t.bindings, ocs, t.fencing[ocs]);
  }

  /** A new binding leaves the path and the handoffs where they are. */
  lemma NewBindingKeeps(bs: map<Instance, Binding>, i: Instance, b: Binding, handoffs: map<HandoffId, Handoff>, path: seq<HandoffId>)
    requires i !in bs && b.status != Quiescent
    requires HandoffsOk(bs, handoffs, path) && Chained(bs, path) && LeftOnPath(bs, path)
    ensures HandoffsOk(bs[i := b], handoffs, path) && Chained(bs[i := b], path) && LeftOnPath(bs[i := b], path)
  {
    forall id | id in handoffs ensures HandoffOk(bs[i := b], id, handoffs[id], path) {
      assert HandoffOk(bs, id, handoffs[id], path);
    }
  }

  /** The row that bind writes. */
  lemma BoundRow(t: Trial, c: BindCmd)
    requires EpochsOk(t.bindings, t.fencing) && Bind(t, c).Ok?
    ensures var t' := Bind(t, c).value; var b := t'.bindings[c.instance];
            && c.instance !in t.bindings && t'.bindings == t.bindings[c.instance := b] && t'.fencing == t.fencing[b.ocs := b.epoch]
            && b.generation == b.epoch == (if b.ocs in t.fencing then t.fencing[b.ocs] else 0) + 1
            && b.ocs == c.ocs != "" && c.instance != ""
            && b.status == (if c.activate && t.mission.active.None? then Active else Bound)
  {
    hide TopGeneration, EpochsOk;
    if c.ocs in t.fencing {
      TopIsEpoch(t, c.ocs);
    }
  }

  lemma BindKeeps(t: Trial, c: BindCmd)
    requires TrialOk(t) && Bind(t, c).Ok?
    ensures TrialOk(Bind(t, c).value) && Later(t, Bind(t, c).value)
  {
    hide TopGeneration, EpochsOk, HandoffsOk, Chained, LeftOnPath, Known, Path;
    var t' := Bind(t, c).value;
    BoundRow(t, c);
    NextEpoch(t.bindings, t.fencing, c.instance, t'.bindings[c.instance]);
    PathGrows(t.receipts, BindingReceipt(c.instance));
    NewBindingKeeps(t.bindings, c.instance, t'.bindings[c.instance], t.handoffs, Path(t.receipts));
  }

  // ---------------------------------------------------------------- checkpoint, issue, effects

  /** Rows that differ at most in their checkpoint. */
  ghost predicate SameRows(bs: map<Instance, Binding>, bs': map<Instance, Binding>) {
    && (forall i :: i in bs <==> i in bs')
    && (forall i :: i in bs ==> bs'[i].(checkpoint := bs[i].checkpoint) == bs[i])
  }

  /** Rows that keep their OCS, generation and epoch. */
  ghost predicate SameIdentities(bs: map<Instance, Binding>, bs': map<Instance, Binding>) {
    && (forall i :: i in bs <==> i in bs')
    && (forall i :: i in bs ==> bs'[i].ocs == bs[i].ocs && bs'[i].generation == bs[i].generation && bs'[i].epoch == bs[i].epoch)
  }

  lemma SameEpochs(bs: map<Instance, Binding>, bs': map<Instance, Binding>, fencing: map<Ocs, nat>)
    requires EpochsOk(bs, fencing) && SameIdentities(bs, bs')
    ensures EpochsOk(bs', fencing)
  {
    forall o, e | o in fencing && 1 <= e <= fencing[o] ensures HasEpoch(bs', o, e) {
      assert HasEpoch(bs, o, e);
      var i :| i in bs && bs[i].ocs == o && bs[i].epoch == e;
      assert bs'[i].ocs == o;
    }
  }

  lemma SameHandoffs(bs: map<Instance, Binding>, bs': map<Instance, Binding>, handoffs: map<HandoffId, Handoff>, path: seq<HandoffId>)
    requires HandoffsOk(bs, handoffs, path) && SameIdentities(bs, bs')
    ensures HandoffsOk(bs', handoffs, path)
  {
    forall id | id in handoffs ensures HandoffOk(bs', id, handoffs[id], path) {
      assert HandoffOk(bs, id, handoffs[id], path);
    }
  }

  lemma SameRowsIdentities(bs: map<Instance, Binding>, bs': map<Instance, Binding>)
    requires SameRows(bs, bs')
    ensures SameIdentities(bs, bs')
  {
  }

  lemma SamePath(bs: map<Instance, Binding>, bs': map<Instance, Binding>, path: seq<HandoffId>)
    requires SameRows(bs, bs') && Chained(bs, path) && LeftOnPath(bs, path)
    ensures Chained(bs', path) && LeftOnPath(bs', path)
  {
  }

  /** An operation that moves neither the mission nor any status, and adds no acceptance. */
  lemma Unmoved(t: Trial, t': Trial)
    requires TrialOk(t) && SameRows(t.bindings, t'.bindings) && t'.mission == t.mission
    requires t'.fencing == t.fencing && t'.handoffs == t.handoffs && Path(t'.receipts) == Path(t.receipts)
    requires forall k :: k in t.effects ==> k in t'.effects && t'.effects[k] == t.effects[k]
    ensures TrialOk(t') && Later(t, t') && SameForClaims(t, t')
  {
    hide EpochsOk, HandoffsOk, Chained, LeftOnPath, SameIdentities, Path;
    SameRowsIdentities(t.bindings, t'.bindings);
    SameEpochs(t.bindings, t'.bindings, t.fencing);
    SameHandoffs(t.bindings, t'.bindings, t.handoffs, Path(t.receipts));
    SamePath(t.bindings, t'.bindings, Path(t.receipts));
  }

  lemma CheckpointKeeps(t: Trial, instance: Instance, state: string)
    requires TrialOk(t) && Checkpoint(t, instance, state).Ok?
    ensures var t' := Checkpoint(t, instance, state).value; TrialOk(t') && Later(t, t') && SameForClaims(t, t')
  {
    hide TrialOk;
    var t' := Checkpoint(t, instance, state).value;
    PathGrows(t.receipts, CheckpointReceipt(CheckpointOf(instance, |t.checkpoints| + 1, state)));
    Unmoved(t, t');
  }

  lemma EffectKeeps(t: Trial, c: EffectCmd)
    requires TrialOk(t) && ApplyEffect(t, c).Ok?
    ensures var r := ApplyEffect(t, c).value;
            TrialOk(r.0) && Later(t, r.0) && SameForClaims(t, r.0) && |r.0.effects| == |t.effects| + r.1
  {
    hide TrialOk;
    PathGrows(t.receipts, EffectReceipt(c.key));
    Unmoved(t, ApplyEffect(t, c).value.0);
  }

  lemma WriteKeeps(t: Trial, c: WriteCmd)
    requires TrialOk(t)
    ensures var t' := WriteState(t, c).0; TrialOk(t') && Later(t, t') && SameForClaims(t, t')
  {
    hide TrialOk;
    Unmoved(t, WriteState(t, c).0);
  }

  /** A handoff that is issued is not on the path. */
  lemma IssuedRow(t: Trial, c: IssueCmd)
    requires TrialOk(t) && Issue(t, c).Ok?
    ensures var (t', id) := Issue(t, c).value;
            id !in t.handoffs && id !in Path(t.receipts) && HandoffOk(t.bindings, id, t'.handoffs[id], Path(t.receipts))
  {
    hide EpochsOk, HandoffsOk, Chained, LeftOnPath, Path;
  }

  lemma IssueKeeps(t: Trial, c: IssueCmd)
    requires TrialOk(t) && Issue(t, c).Ok?
    ensures TrialOk(Issue(t, c).value.0) && Later(t, Issue(t, c).value.0) && SameForClaims(t, Issue(t, c).value.0)
  {
    hide EpochsOk, Chained, LeftOnPath, HandoffOk, Path;
    IssuedRow(t, c);
    PathGrows(t.receipts, EnvelopeReceipt(Issue(t, c).value.1));
  }

  // ---------------------------------------------------------------- accept

  /** What a claim that wins does. */
  lemma ClaimShape(t: Trial, c: Claim)
    requires ClaimHandoff(t, c).Ok? && c.handoff.source != c.handoff.target
    ensures var t' := ClaimHandoff(t, c).value; var id := c.handoff;
            && id.source in t.bindings && id.target in t.bindings && id in t.handoffs
            && t'.bindings == t.bindings[id.source := t.bindings[id.source].(status := Quiescent)]
                                        [id.target := t.bindings[id.target].(status := Active)]
            && t'.handoffs == t.handoffs[id := t.handoffs[id].(accepted := true)]
            && t'.receipts == t.receipts + [AcceptanceReceipt(id)]
            && t'.fencing == t.fencing && t'.effects == t.effects
            && t'.mission == t.mission.(active := Some(id.target), activeOcs := c.row.targetOcs, currentHandoff := Some(id),
                                        steps := c.mission.steps + 1, handoffs := c.mission.handoffs + 1, version := t.mission.version + 1)
            && t.mission.version == c.mission.version && t.mission.active == Some(id.source)
  {
  }

  function Handed(bs: map<Instance, Binding>, source: Instance, target: Instance): map<Instance, Binding>
    requires source in bs && target in bs
  {
    bs[source := bs[source].(status := Quiescent)][target := bs[target].(status := Active)]
  }

  /** One more handoff on the path. */
  lemma PathExtends(bs: map<Instance, Binding>, path: seq<HandoffId>, id: HandoffId)
    requires Chained(bs, path) && LeftOnPath(bs, path)
    requires id.source in bs && id.target in bs && id.source != id.target
    requires bs[id.source].status == Active && bs[id.target].status == Bound
    requires path != [] ==> Last(path).target == id.source
    ensures Chained(Handed(bs, id.source, id.target), path + [id]) && LeftOnPath(Handed(bs, id.source, id.target), path + [id])
  {
    var bs', path' := Handed(bs, id.source, id.target), path + [id];
    forall k | 0 <= k < |path| ensures path[k].source != id.source && path[k].source != id.target {
      assert bs[path[k].source].status == Quiescent;
    }
    forall i | i in bs' && bs'[i].status == Quiescent ensures exists k :: 0 <= k < |path'| && path'[k].source == i {
      if i == id.source {
        assert path'[|path|].source == i;
      } else {
        assert bs[i].status == Quiescent;
        var k :| 0 <= k < |path| && path[k].source == i;
        assert path'[k].source == i;
      }
    }
  }

  lemma HandoffsExtend(bs: map<Instance, Binding>, bs': map<Instance, Binding>, handoffs: map<HandoffId, Handoff>, path: seq<HandoffId>, id: HandoffId)
    requires HandoffsOk(bs, handoffs, path) && SameIdentities(bs, bs') && id in handoffs
    ensures HandoffsOk(bs', handoffs[id := handoffs[id].(accepted := true)], path + [id])
  {
    var handoffs' := handoffs[id := handoffs[id].(accepted := true)];
    forall h | h in handoffs' ensures HandoffOk(bs', h, handoffs'[h], path + [id]) {
      assert HandoffOk(bs, h, handoffs[h], path);
    }
  }

  lemma KnownRow(t: Trial, id: HandoffId)
    requires TrialOk(t) && id in t.handoffs
    ensures HandoffOk(t.bindings, id, t.handoffs[id], Path(t.receipts))
  {
    hide EpochsOk, PathOk, HandoffOk, Path;
  }

  /** A handoff read at the current version can be claimed, and is the next step of the path. */
  lemma ClaimKeeps(t: Trial, c: Claim)
    requires TrialOk(t) && ClaimOk(t, c) && ClaimHandoff(t, c).Ok?
    ensures var t' := ClaimHandoff(t, c).value;
            && TrialOk(t') && Later(t, t') && t'.mission.version == t.mission.version + 1
            && Path(t'.receipts) == Path(t.receipts) + [c.handoff]
            && c.handoff.source in t'.bindings && t'.bindings[c.handoff.source].status == Quiescent
  {
    hide EpochsOk, HandoffsOk, Chained, LeftOnPath, ClaimHandoff, Path;
    var t', id := ClaimHandoff(t, c).value, c.handoff;
    KnownRow(t, id);
    ClaimShape(t, c);
    SameEpochs(t.bindings, t'.bindings, t.fencing);
    PathGrows(t.receipts, AcceptanceReceipt(id));
    PathExtends(t.bindings, Path(t.receipts), id);
    HandoffsExtend(t.bindings, t'.bindings, t.handoffs, Path(t.receipts), id);
  }

  lemma ReadIsOk(t: Trial, id: HandoffId)
    requires TrialOk(t) && ReadHandoff(t, id).Ok?
    ensures ClaimOk(t, ReadHandoff(t, id).value)
  {
    hide TrialOk;
  }

  // ---------------------------------------------------------------- runs

  lemma BindClaims(t: Trial, c: BindCmd, claims: seq<Claim>)
    requires TrialOk(t) && ClaimsOk(t, claims) && Bind(t, c).Ok?
    ensures ClaimsOk(Bind(t, c).value, claims)
  {
    hide TopGeneration, TrialOk, ClaimsOk;
    var t' := Bind(t, c).value;
    if t'.mission.version == t.mission.version {
      ClaimsKept(t, t', claims);
    } else {
      ClaimsVoid(t, t', claims);
    }
  }

  lemma StepKeeps(s: System, m: Move)
    requires SystemOk(s)
    ensures SystemOk(Step(s, m)) && Later(s.trial, Step(s, m).trial)
  {
    hide TrialOk, Bind, Checkpoint, Issue, ReadHandoff, ClaimHandoff, ApplyEffect, WriteState, SameForClaims, ClaimOk;
    LaterRefl(s.trial);
    match m
    case DoBind(c) => if Bind(s.trial, c).Ok? { BindKeeps(s.trial, c); BindClaims(s.trial, c, s.claims); BindEffects(s.trial, c); }
    case DoCheckpoint(i, state) =>
      if Checkpoint(s.trial, i, state).Ok? {
        CheckpointKeeps(s.trial, i, state);
        ClaimsKept(s.trial, Checkpoint(s.trial, i, state).value, s.claims);
        CheckpointEffects(s.trial, i, state);
      }
    case DoIssue(c) =>
      if Issue(s.trial, c).Ok? {
        IssueKeeps(s.trial, c);
        ClaimsKept(s.trial, Issue(s.trial, c).value.0, s.claims);
        IssueEffects(s.trial, c);
      }
    case DoRead(id) => if ReadHandoff(s.trial, id).Ok? { ReadIsOk(s.trial, id); }
    case DoClaim(k) =>
      if k < |s.claims| && ClaimHandoff(s.trial, s.claims[k]).Ok? {
        ClaimKeeps(s.trial, s.claims[k]);
        ClaimFrame(s.trial, s.claims[k]);
        ClaimsVoid(s.trial, ClaimHandoff(s.trial, s.claims[k]).value, s.claims);
      }
    case DoEffect(c) =>
      if ApplyEffect(s.trial, c).Ok? {
        EffectKeeps(s.trial, c);
        ClaimsKept(s.trial, ApplyEffect(s.trial, c).value.0, s.claims);
      }
    case DoWrite(c) =>
      WriteKeeps(s.trial, c);
      ClaimsKept(s.trial, WriteState(s.trial, c).0, s.claims);
      WriteEffects(s.trial, c);
  }

  lemma LaterRefl(t: Trial)
    ensures Later(t, t)
  {
  }

  lemma LaterTrans(a: Trial, b: Trial, c: Trial)
    requires Later(a, b) && Later(b, c)
    ensures Later(a, c)
  {
  }

  lemma BindEffects(t: Trial, c: BindCmd)
    ensures Bind(t, c).Ok? ==> Bind(t, c).value.effects == t.effects
  {
  }

  lemma CheckpointEffects(t: Trial, i: Instance, state: string)
    ensures Checkpoint(t, i, state).Ok? ==> Checkpoint(t, i, state).value.effects == t.effects
  {
  }

  lemma IssueEffects(t: Trial, c: IssueCmd)
    ensures Issue(t, c).Ok? ==> Issue(t, c).value.0.effects == t.effects
  {
  }

  lemma WriteEffects(t: Trial, c: WriteCmd)
    ensures WriteState(t, c).0.effects == t.effects
  {
  }

  lemma ClaimFrame(t: Trial, c: Claim)
    requires ClaimHandoff(t, c).Ok?
    ensures var t' := ClaimHandoff(t, c).value;
            t'.effects == t.effects
            && forall id :: id in t.handoffs ==> id in t'.handoffs && t'.handoffs[id].targetOcs == t.handoffs[id].targetOcs
  {
  }

  lemma {:induction false} RunKeeps(s: System, moves: seq<Move>)
    requires SystemOk(s)
    ensures SystemOk(Run(s, moves)) && Later(s.trial, Run(s, moves).trial)
  {
    hide SystemOk, Later, Step;
    if moves == [] {
      LaterRefl(s.trial);
    } else {
      RunKeeps(s, DropLast(moves));
      StepKeeps(Run(s, DropLast(moves)), Last(moves));
      LaterTrans(s.trial, Run(s, DropLast(moves)).trial, Run(s, moves).trial);
    }
  }

  lemma StartOk(budget: nat)
    requires budget >= 1
    ensures SystemOk(Start(budget))
  {
  }

  // ---------------------------------------------------------------- what every run shows

  /** The instances a path visits, in order. */
  function Visited(path: seq<HandoffId>): seq<Instance> {
    if path == [] then [] else [path[0].source] + seq(|path|, k requires 0 <= k < |path| => path[k].target)
  }

  predicate NoRepeats(s: seq<Instance>) {
    forall j, k :: 0 <= j < k < |s| ==> s[j] != s[k]
  }

  lemma VisitedOnce(t: Trial)
    requires TrialOk(t)
    ensures NoRepeats(Visited(Path(t.receipts)))
  {
    hide EpochsOk, HandoffsOk, LeftOnPath, Known, Path;
    var path := Path(t.receipts);
    var nodes := Visited(path);
    forall j, k | 0 <= j < k < |nodes| ensures nodes[j] != nodes[k] {
      assert j < |path| && nodes[j] == path[j].source;
      if k < |path| {
        assert nodes[k] == path[k].source;
      } else {
        assert nodes[k] == Last(path).target;
      }
    }
  }

  /**
   In any run the accepted handoffs form a path that visits no instance twice and
   ends at the one ACTIVE binding; both counters are its length, within the budget.
   */
  lemma HandoffsFormSimplePath(budget: nat, moves: seq<Move>)
    requires budget >= 1
    ensures var t := Run(Start(budget), moves).trial; var path := Path(t.receipts);
            && (forall k :: 0 < k < |path| ==> path[k].source == path[k - 1].target)
            && NoRepeats(Visited(path))
            && |path| == t.mission.steps == t.mission.handoffs <= t.mission.budget == budget
            && (path != [] ==> t.mission.active == Some(Last(path).target))
            && (forall i :: i in t.bindings ==> (t.bindings[i].status == Active <==> t.mission.active == Some(i)))
            && (forall id :: id in t.handoffs ==> (t.handoffs[id].accepted <==> id in path))
  {
    hide EpochsOk, Path, Run;
    StartOk(budget);
    RunKeeps(Start(budget), moves);
    var t := Run(Start(budget), moves).trial;
    VisitedOnce(t);
    forall id | id in t.handoffs ensures t.handoffs[id].accepted <==> id in Path(t.receipts) {
      KnownRow(t, id);
    }
  }

  /** Per mission and OCS, generation and epoch are one number, running from 1 to the current epoch without gaps. */
  lemma EpochsAreConsecutive(budget: nat, moves: seq<Move>, ocs: Ocs, e: nat)
    requires budget >= 1
    ensures var t := Run(Start(budget), moves).trial;
            && (forall i :: i in t.bindings && t.bindings[i].ocs == ocs ==> 1 <= t.bindings[i].generation == t.bindings[i].epoch <= Epoch(t, ocs))
            && (1 <= e <= Epoch(t, ocs) ==> HasEpoch(t.bindings, ocs, e))
            && OneEach(t.bindings)
  {
    hide HandoffsOk, PathOk, Run;
    StartOk(budget);
    RunKeeps(Start(budget), moves);
  }

  /** The mutation counts that effects report add up to the keys stored. */
  lemma {:induction false} MutationsCountKeys(budget: nat, moves: seq<Move>)
    requires budget >= 1
    ensures Run(Start(budget), moves).mutations == |Run(Start(budget), moves).trial.effects|
  {
    hide TrialOk, Run;
    StartOk(budget);
    RunKeeps(Start(budget), moves);
  }

  /** Once a handoff from a source is accepted, no other from that source is ever read or claimed again. */
  lemma SourceIsLeft(s: System, k: nat, moves: seq<Move>, id: HandoffId, c: Claim)
    requires SystemOk(s) && k < |s.claims| && ClaimHandoff(s.trial, s.claims[k]).Ok?
    requires id.source == s.claims[k].handoff.source && c.handoff.source == id.source
    ensures var t := Run(Step(s, DoClaim(k)), moves).trial;
            ReadHandoff(t, id).Err? && ClaimHandoff(t, c).Err?
  {
    hide EpochsOk, HandoffsOk, PathOk, Run, ClaimHandoff, ReadHandoff, Path;
    StepKeeps(s, DoClaim(k));
    ClaimKeeps(s.trial, s.claims[k]);
    RunKeeps(Step(s, DoClaim(k)), moves);
    QuiescentIsOut(Run(Step(s, DoClaim(k)), moves).trial, id, c);
  }

  lemma QuiescentIsOut(t: Trial, id: HandoffId, c: Claim)
    requires ActiveOk(t.mission, t.bindings) && id.source in t.bindings && t.bindings[id.source].status == Quiescent
    requires c.handoff.source == id.source
    ensures ReadHandoff(t, id).Err? && ClaimHandoff(t, c).Err?
  {
  }

  /** Of all accepts that read the same mission version, at most one wins. */
  lemma AtMostOneWins(s: System, j: nat, k: nat, moves: seq<Move>)
    requires SystemOk(s) && j < |s.claims| && k < |s.claims| && s.claims[j].mission.version == s.claims[k].mission.version
    requires ClaimHandoff(s.trial, s.claims[k]).Ok?
    ensures ClaimHandoff(Run(Step(s, DoClaim(k)), moves).trial, s.claims[j]) == Err(ConcurrentConflict)
  {
    hide TrialOk, Run, ClaimOk;
    StepKeeps(s, DoClaim(k));
    ClaimWinsVersion(s.trial, s.claims[k]);
    RunKeeps(Step(s, DoClaim(k)), moves);
  }

  lemma ClaimWinsVersion(t: Trial, c: Claim)
    requires ClaimHandoff(t, c).Ok?
    ensures ClaimHandoff(t, c).value.mission.version == t.mission.version + 1 == c.mission.version + 1
  {
  }

  // ---------------------------------------------------------------- the last actor

  lemma SynesisStep(s: System, m: Move)
    requires SystemOk(s) && s.trial.mission.active.Some? && s.trial.mission.activeOcs == SYNESIS
    ensures Step(s, m).trial.mission.active.Some? && Step(s, m).trial.mission.activeOcs == SYNESIS
  {
    hide EpochsOk, HandoffsOk, PathOk, TopGeneration, Path, RouteTarget, RouteSource;
    if m.DoClaim? && m.claim < |s.claims| && ClaimHandoff(s.trial, s.claims[m.claim]).Ok? {
      var id := s.claims[m.claim].handoff;
      KnownRow(s.trial, id);
      FromSynesis(s.trial, id);
    }
  }

  /** Every listed route out of SYNESIS leads to SYNESIS. */
  lemma FromSynesis(t: Trial, id: HandoffId)
    requires id in t.handoffs && HandoffOk(t.bindings, id, t.handoffs[id], Path(t.receipts)) && t.handoffs[id].sourceOcs == SYNESIS
    ensures t.handoffs[id].targetOcs == SYNESIS
  {
    hide Path;
    assert |DEDALA| == 6 && |SOFIA| == 5 && |SYNESIS| == 7;
  }

  /** Once SYNESIS is the active OCS it stays so: only another SYNESIS instance can follow. */
  lemma {:induction false} SynesisIsLast(s: System, moves: seq<Move>)
    requires SystemOk(s) && s.trial.mission.active.Some? && s.trial.mission.activeOcs == SYNESIS
    ensures Run(s, moves).trial.mission.activeOcs == SYNESIS && Run(s, moves).trial.mission.active.Some?
  {
    hide SystemOk, Step, Later;
    if moves != [] {
      SynesisIsLast(s, DropLast(moves));
      RunKeeps(s, DropLast(moves));
      SynesisStep(Run(s, DropLast(moves)), Last(moves));
    }
  }

  /** Two SYNESIS instances: the first is active, checkpointed, and hands over to the second by the implementer's route. */
  function Succession(): seq<Move> {
    var id := HandoffOf(ImplementerToSynesis, "first", "second", CheckpointOf("first", 1, "state"), "envelope");
    [DoBind(BindCmd(SYNESIS, "first", "authority", "role", true)), DoBind(BindCmd(SYNESIS, "second", "authority", "role", false)),
     DoCheckpoint("first", "state"), DoIssue(IssueCmd(ImplementerToSynesis, "second", SYNESIS, "envelope")), DoRead(id), DoClaim(0)]
  }

  lemma {:induction false} RunJoin(s: System, a: seq<Move>, b: seq<Move>)
    ensures Run(s, a + b) == Run(Run(s, a), b)
  {
    hide Step;
    if b == [] {
      assert a + b == a;
    } else {
      RunJoin(s, a, DropLast(b));
      assert DropLast(a + b) == a + DropLast(b) && Last(a + b) == Last(b);
    }
  }

  lemma RunFirst(s: System, m: Move, moves: seq<Move>)
    ensures Run(s, [m] + moves) == Run(Step(s, m), moves)
  {
    hide Step;
    RunJoin(s, [m], moves);
    assert DropLast([m]) == [];
  }

  /** After the two bindings: the first is active, the second waits. */
  predicate BothBound(s: System) {
    && s.claims == [] && s.trial.checkpoints == [] && s.trial.handoffs == map[]
    && s.trial.mission.active == Some("first") && s.trial.mission.activeOcs == SYNESIS
    && s.trial.mission.steps == 0 && s.trial.mission.budget >= 1
    && "first" in s.trial.bindings && s.trial.bindings["first"].status == Active
    && "second" in s.trial.bindings && s.trial.bindings["second"].status == Bound && s.trial.bindings["second"].ocs == SYNESIS
  }

  lemma BindsBoth(budget: nat)
    requires budget >= 1
    ensures BothBound(Step(Step(Start(budget), Succession()[0]), Succession()[1]))
  {
    hide TopGeneration;
    assert |"first"| != |"second"|;
  }

  lemma HandsOver(s: System)
    requires BothBound(s)
    ensures var m := Succession();
            Step(Step(Step(Step(s, m[2]), m[3]), m[4]), m[5]).trial.mission.active == Some("second")
  {
    hide Bind;
    assert |"first"| != |"second"|;
  }

  /** SYNESIS can be followed: here the second instance takes over from the first. */
  lemma SynesisFollowsSynesis(budget: nat)
    requires budget >= 1
    ensures Run(Start(budget), Succession()[..2]).trial.mission.active == Some("first")
    ensures Run(Start(budget), Succession()[..2]).trial.mission.activeOcs == SYNESIS
    ensures Run(Start(budget), Succession()).trial.mission.active == Some("second")
  {
    hide Step, Start, BothBound;
    var m, s := Succession(), Start(budget);
    BindsBoth(budget);
    HandsOver(Step(Step(s, m[0]), m[1]));
    assert m == [m[0]] + ([m[1]] + ([m[2]] + ([m[3]] + ([m[4]] + ([m[5]] + [])))));
    RunFirst(s, m[0], [m[1]] + ([m[2]] + ([m[3]] + ([m[4]] + ([m[5]] + [])))));
    RunFirst(Step(s, m[0]), m[1], [m[2]] + ([m[3]] + ([m[4]] + ([m[5]] + []))));
    var t := Step(Step(s, m[0]), m[1]);
    RunFirst(t, m[2], [m[3]] + ([m[4]] + ([m[5]] + [])));
    RunFirst(Step(t, m[2]), m[3], [m[4]] + ([m[5]] + []));
    RunFirst(Step(Step(t, m[2]), m[3]), m[4], [m[5]] + []);
    RunFirst(Step(Step(Step(t, m[2]), m[3]), m[4]), m[5], []);
    assert m[..2] == [m[0]] + ([m[1]] + []);
    RunFirst(s, m[0], [m[1]] + []);
    RunFirst(Step(s, m[0]), m[1], []);
    BoundFacts(t);
  }

  lemma BoundFacts(s: System)
    requires BothBound(s)
    ensures s.trial.mission.active == Some("first") && s.trial.mission.activeOcs == SYNESIS
  {
  }

  // ---------------------------------------------------------------- restart

  lemma {:induction false} PathReceipt(receipts: seq<Receipt>, id: HandoffId)
    ensures id in Path(receipts) <==> AcceptanceReceipt(id) in receipts
  {
    if receipts != [] {
      PathReceipt(DropLast(receipts), id);
      assert receipts == DropLast(receipts) + [Last(receipts)];
    }
  }

  /** A restart is revalidated exactly when the active binding has a checkpoint, the newest epoch of its OCS, and its authority. */
  lemma RecoverExactlyWhen(t: Trial, authorized: bool)
    requires TrialOk(t)
    ensures Recover(t, authorized).Ok? <==>
              && t.mission.active.Some?
              && t.bindings[t.mission.active.value].checkpoint.Some?
              && t.bindings[t.mission.active.value].epoch == Epoch(t, t.mission.activeOcs)
              && authorized
    ensures Recover(t, authorized).Ok? ==>
              Recover(t, authorized).value == (t.mission.active.value, t.bindings[t.mission.active.value].epoch)
  {
    hide HandoffsOk, PathOk, OneEach, NoGaps, Path;
    if t.mission.currentHandoff.Some? && t.mission.currentHandoff.value in t.handoffs {
      KnownRow(t, t.mission.currentHandoff.value);
      PathReceipt(t.receipts, t.mission.currentHandoff.value);
    }
  }

  // ---------------------------------------------------------------- the store

  class Trial2Store {
    var mission: Mission
    var bindings: map<Instance, Binding>
    var fencing: map<Ocs, nat>
    var checkpoints: seq<CheckpointId>
    var handoffs: map<HandoffId, Handoff>
    var receipts: seq<Receipt>
    var effects: map<string, Effect>
    var entries: map<string, Entry>

    function Contents(): Trial
      reads this
    {
      Trial(mission, bindings, fencing, checkpoints, handoffs, receipts, effects, entries)
    }

    /** create_mission. */
    constructor (budget: nat)
      requires budget >= 1
      ensures Contents() == NewTrial(budget)
    {
      mission := Mission(None, "", None, budget, 0, 0, 1);
      bindings, fencing, checkpoints, handoffs := map[], map[], [], map[];
      receipts, effects, entries := [], map[], map[];
    }

    method MaxGeneration(ocs: Ocs) returns (g: nat)
      ensures g == TopGeneration(bindings, ocs)
    {
      hide TopGeneration;
      g := 0;
      var rest := bindings.Keys;
      while rest != {}
        invariant rest <= bindings.Keys
        invariant forall i :: i in bindings && i !in rest && bindings[i].ocs == ocs ==> bindings[i].generation <= g
        invariant g > 0 ==> exists i :: i in bindings && bindings[i].ocs == ocs && bindings[i].generation == g
      {
        var i :| i in rest;
        if bindings[i].ocs == ocs && bindings[i].generation > g {
          g := bindings[i].generation;
        }
        rest := rest - {i};
      }
      assert IsTop(bindings, ocs, g);
    }

    method BindInstance(c: BindCmd) returns (e: Option<Error>)
      modifies this
      ensures match Bind(old(Contents()), c)
              case Err(x) => e == Some(x) && Contents() == old(Contents())
              case Ok(t) => e == None && Contents() == t
    {
      hide TopGeneration;
      if c.ocs == "" || c.instance == "" || c.authority == "" || c.role == "" {
        return Some(Ambiguous);
      }
      if c.instance in bindings {
        return Some(IntegrityRejected);
      }
      var epoch, generation := 1, 1;
      if c.ocs in fencing {
        epoch := fencing[c.ocs] + 1;
        var top := MaxGeneration(c.ocs);
        generation := top + 1;
      }
      fencing := fencing[c.ocs := epoch];
      var active := c.activate && mission.active.None?;
      bindings := bindings[c.instance := Binding(c.ocs, generation, epoch, c.authority, c.role, if active then Active else Bound, None)];
      if active {
        mission := mission.(active := Some(c.instance), activeOcs := c.ocs, version := mission.version + 1);
      }
      receipts := receipts + [BindingReceipt(c.instance)];
      return None;
    }

    method SaveCheckpoint(instance: Instance, state: string) returns (e: Option<Error>)
      modifies this
      ensures match Checkpoint(old(Contents()), instance, state)
              case Err(x) => e == Some(x) && Contents() == old(Contents())
              case Ok(t) => e == None && Contents() == t
    {
      if mission.active != Some(instance) {
        return Some(NotActive);
      }
      if instance !in bindings {
        return Some(BindingMissing);
      }
      if bindings[instance].status != Active {
        return Some(NotActive);
      }
      var id := CheckpointOf(instance, |checkpoints| + 1, state);
      checkpoints := checkpoints + [id];
      bindings := bindings[instance := bindings[instance].(checkpoint := Some(id))];
      receipts := receipts + [CheckpointReceipt(id)];
      return None;
    }

    method IssueHandoff(c: IssueCmd) returns (r: Result<HandoffId>)
      modifies this
      ensures match Issue(old(Contents()), c)
              case Err(x) => r == Err(x) && Contents() == old(Contents())
              case Ok(t) => r == Ok(t.1) && Contents() == t.0
    {
      if c.route.Unlisted? {
        return Err(UnlistedRoute);
      }
      if mission.active.None? || mission.active.value == "" || mission.activeOcs == "" {
        return Err(SourceMissing);
      }
      var source := mission.active.value;
      var expected := RouteSource(c.route);
      if expected.Some? && expected.value != mission.activeOcs {
        return Err(SourceMismatch);
      }
      if RouteTarget(c.route) != c.targetOcs {
        return Err(TargetMismatch);
      }
      if source !in bindings || c.target !in bindings {
        return Err(BindingMissing);
      }
      if bindings[source].checkpoint.None? {
        return Err(CheckpointRequired);
      }
      if bindings[c.target].ocs != c.targetOcs || bindings[c.target].status != Bound {
        return Err(TargetNotBound);
      }
      var id := HandoffOf(c.route, source, c.target, bindings[source].checkpoint.value, c.envelope);
      if id in handoffs {
        return Err(IntegrityRejected);
      }
      handoffs := handoffs[id := Handoff(mission.activeOcs, c.targetOcs, false)];
      mission := mission.(currentHandoff := Some(id));
      receipts := receipts + [EnvelopeReceipt(id)];
      return Ok(id);
    }

    /** accept_handoff in one go: what it read is what it claims. */
    method AcceptHandoff(id: HandoffId) returns (e: Option<Error>)
      modifies this
      ensures match ReadHandoff(old(Contents()), id)
              case Err(x) => e == Some(x) && Contents() == old(Contents())
              case Ok(c) =>
                match ClaimHandoff(old(Contents()), c)
                case Err(x) => e == Some(x) && Contents() == old(Contents())
                case Ok(t) => e == None && Contents() == t
    {
      if id !in handoffs {
        return Some(UnknownHandoff);
      }
      if handoffs[id].accepted {
        return Some(BlindRetry);
      }
      if mission.active != Some(id.source) {
        return Some(SourceNoLongerActive);
      }
      if id.source !in bindings || id.target !in bindings {
        return Some(BindingMissing);
      }
      if bindings[id.source].checkpoint != Some(id.checkpoint) {
        return Some(CheckpointChanged);
      }
      if bindings[id.target].status != Bound {
        return Some(TargetNotBound);
      }
      if mission.steps + 1 > mission.budget {
        return Some(BudgetExhausted);
      }
      mission := mission.(active := Some(id.target), activeOcs := handoffs[id].targetOcs, currentHandoff := Some(id),
                          steps := mission.steps + 1, handoffs := mission.handoffs + 1, version := mission.version + 1);
      bindings := bindings[id.source := bindings[id.source].(status := Quiescent)];
      bindings := bindings[id.target := bindings[id.target].(status := Active)];
      receipts := receipts + [AcceptanceReceipt(id)];
      handoffs := handoffs[id := handoffs[id].(accepted := true)];
      return None;
    }

    method ApplySyntheticEffect(c: EffectCmd) returns (r: Result<nat>)
      modifies this
      ensures match ApplyEffect(old(Contents()), c)
              case Err(x) => r == Err(x) && Contents() == old(Contents())
              case Ok(t) => r == Ok(t.1) && Contents() == t.0
    {
      if mission.active != Some(c.instance) || mission.activeOcs != c.ocs {
        return Err(Unauthorized);
      }
      if c.instance !in bindings {
        return Err(BindingMissing);
      }
      if bindings[c.instance].epoch != c.epoch {
        return Err(StaleEpoch);
      }
      if bindings[c.instance].authority != c.authority {
        return Err(AuthorityMismatch);
      }
      if c.key in effects {
        if effects[c.key].payload != c.payload {
          return Err(PayloadMismatch);
        }
        return Ok(0);
      }
      receipts := receipts + [EffectReceipt(c.key)];
      effects := effects[c.key := Effect(c.payload, c.instance, c.epoch)];
      return Ok(1);
    }

    method WriteEntry(c: WriteCmd) returns (n: nat)
      modifies this
      ensures (Contents(), n) == WriteState(old(Contents()), c)
    {
      if mission.active != Some(c.instance) || mission.activeOcs != c.ocs {
        return 0;
      }
      if !c.namespaceOk {
        return 0;
      }
      if c.instance !in bindings || bindings[c.instance].epoch != c.epoch {
        return 0;
      }
      entries := entries[c.key := Entry(c.value, c.instance, c.epoch)];
      return 1;
    }
  }
}
