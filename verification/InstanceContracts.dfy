/**
 The value types of app/ocs_instances/contracts.py.

 A digest is modelled as the term it digests, so that equal digests mean equal
 inputs and nothing else is known about them: a binding id stands for the hash
 of its request, an event hash for the hash of the Hazel event.
 */
module InstanceContracts {
  import opened Prelude

  type Key = string

  /** organization, mission and OCS; the run id is an injective function of the three. */
  datatype Lineage = Lineage(organization: string, mission: string, ocs: string)

  /** Profile version, hash and namespaces travel together in the registry. */
  datatype Profile = Profile(version: string, authorityRef: string, stateNamespace: string, memoryNamespace: string)

  datatype Request = Request(
    lineage: Lineage,
    leaseId: string,
    key: Key,
    causation: Option<EventHash>,
    details: string)

  datatype BindingId = BindingOf(request: Request)

  datatype Maturity = PreparedUnverified | OperationallyBoundL1

  /** What the bootstrap digest covers, apart from per-binding constants. */
  datatype Bootstrap = Bootstrap(
    binding: BindingId,
    generation: nat,
    predecessor: Option<BindingId>,
    checkpointVersion: nat,
    checkpoint: Option<Payload>,
    maturity: Maturity,
    issuedAt: int)

  /** The states written to Hazel; each names the binding it belongs to. */
  datatype Payload =
    | PreparePayload(binding: BindingId, generation: nat, bootstrap: Bootstrap, maturity: Maturity)
    | CheckpointPayload(binding: BindingId, generation: nat, state: string)
    | ReplacementPayload(binding: BindingId, generation: nat, recoveredFrom: BindingId, recovered: Payload, bootstrap: Bootstrap)

  datatype Trace =
    | PrepareTrace
    | CheckpointTrace
    | ReplacementTrace
    | ColdRecoveryTrace

  datatype HazelEvent = HazelEvent(
    run: Lineage,
    version: nat,
    predecessor: Option<EventHash>,
    payload: Payload,
    trace: Trace)

  datatype EventHash = Sha(event: HazelEvent)

  datatype Status = Prepared | Persisted | Bound | Active | Checkpointed | Replaced | Closed | Revoked | Hold

  /** ALLOWED_TRANSITIONS. */
  function Allowed(current: Status): set<Status> {
    match current
    case Prepared => {Persisted, Revoked, Hold}
    case Persisted => {Bound, Revoked, Hold}
    case Bound => {Active, Revoked, Hold}
    case Active => {Checkpointed, Replaced, Closed, Revoked, Hold}
    case Checkpointed => {Active, Checkpointed, Replaced, Closed, Revoked, Hold}
    case Replaced | Closed | Revoked | Hold => {}
  }

  predicate Nonterminal(s: Status) {
    s in {Prepared, Persisted, Bound, Active, Checkpointed}
  }

  datatype Binding = Binding(
    id: BindingId,
    lineage: Lineage,
    profile: Profile,
    request: Request,
    maturity: Maturity,
    leaseId: string,
    authorityRef: string,
    generation: nat,
    platform: Option<string>,
    bootstrap: Bootstrap,
    status: Status,
    version: nat,
    predecessor: Option<BindingId>,
    checkpointVersion: nat,
    checkpoint: Option<Payload>,
    eventHash: Option<EventHash>,
    key: Key,
    createdAt: int)

  datatype SagaKind = CheckpointSaga | ReplacementSaga

  datatype SagaState = LeaseReserved | EffectApplied | ReadbackVerified | LocalCommitted | LeaseFinalized

  function Rank(s: SagaState): nat {
    match s
    case LeaseReserved => 0
    case EffectApplied => 1
    case ReadbackVerified => 2
    case LocalCommitted => 3
    case LeaseFinalized => 4
  }

  datatype Fingerprint =
    | CheckpointFingerprint(payload: Payload, authority: Request)
    | ReplacementFingerprint(request: Request, predecessor: BindingId, checkpoint: Option<Payload>, checkpointVersion: nat)

  datatype Saga = Saga(
    binding: BindingId,
    kind: SagaKind,
    fingerprint: Fingerprint,
    leaseId: string,
    state: SagaState)

  datatype EventType =
    | InstancePrepared
    | InstancePersisted
    | PlatformAttached
    | BootstrapAcknowledged
    | InstanceCheckpointed
    | InstanceReplaced
    | ReplacementPersisted

  /** The optional columns a transition may overwrite. */
  datatype Change = Change(
    platform: Option<string>,
    checkpointVersion: Option<nat>,
    checkpoint: Option<Payload>,
    event: Option<EventHash>,
    maturity: Option<Maturity>)

  /** The caller's own part of a transition's journal payload. */
  datatype Note =
    | HazelNote(event: EventHash, payload: Payload)
    | TaskNote(task: string)
    | AckNote(generation: nat, bootstrap: Bootstrap)
    | CheckpointNote(stateVersion: nat, event: EventHash, fingerprint: Fingerprint)

  datatype Body =
    | PreparedBody(profile: Profile)
    | TransitionBody(note: Note, change: Change)
    | ReplacedBody(successor: BindingId, predecessorExpected: nat, successorExpected: nat,
                   checkpointVersion: nat, checkpoint: Payload, event: EventHash)
    | SuccessorBody(predecessor: BindingId, stateVersion: nat)

  datatype JournalEvent = JournalEvent(
    binding: BindingId,
    kind: EventType,
    from: Option<Status>,
    to: Status,
    version: nat,
    key: Key,
    body: Body)

  datatype Error =
    | InitialStateInvalid
    | IdempotencyConflict
    | ActiveBindingExists
    | PredecessorNotFound
    | LineageMismatch
    | IntegrityRejected
    | BindingNotFound
    | VersionConflict
    | TransitionForbidden
    | CheckpointRequired
    | SuccessorNotPrepared
    | SagaNotFound
    | SagaConflict
    | LeaseRejected
    | LeaseUnknown
    | RequestInvalid
    | UnknownOcs
    | HazelMissing
    | HazelRejected
    | HazelConflict
    | HazelVersionConflict
    | ReadbackMismatch
    | BootstrapMismatch
    | NotActive
    | WorkerFenced
    | ScopeMismatch
    | CausationMismatch
    | ProfileDrift
    | AckMismatch
    | TaskMismatch
    | SuccessorMissing
    | SagaMissing
    | LeaseMismatch
    | CommitIncomplete
    | SagaIncomplete
    | MultipleActive

  datatype Result<+T> = Ok(value: T) | Err(error: Error)
}
