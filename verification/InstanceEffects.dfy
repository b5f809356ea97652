/**
 The two stores outside the registry: Hazel and the authority-lease manager
 (app/universal_kernel/governance.py).
 */
module InstanceEffects {
  import opened Prelude
  import opened InstanceContracts

  /**
   Hazel keeps one versioned register per run.  The log holds every accepted
   write; only the last one can be read back.
   */
  type Logs = map<Lineage, seq<HazelEvent>>

  function Run(h: Logs, l: Lineage): seq<HazelEvent> {
    if l in h then h[l] else []
  }

  function LastHash(log: seq<HazelEvent>): Option<EventHash> {
    if log == [] then None else Some(Sha(Last(log)))
  }

  /** A write is accepted when it continues the register by exactly one version. */
  predicate Accepts(log: seq<HazelEvent>, e: HazelEvent) {
    e.version == |log| + 1 && e.predecessor == LastHash(log)
  }

  function Persist(h: Logs, e: HazelEvent): Result<Logs> {
    if Accepts(Run(h, e.run), e) then Ok(h[e.run := Run(h, e.run) + [e]]) else Err(HazelRejected)
  }

  datatype LeaseAction = BindAction | CheckpointAction

  /** The action id a reservation is made for. */
  datatype ActionId = BindUse(binding: BindingId) | CheckpointUse(binding: BindingId, version: nat)

  datatype LeaseState = LeaseActive | LeaseConsumed | LeaseReleased

  /** `usable`: neither revoked nor outside its validity window. */
  datatype Lease = Lease(
    action: LeaseAction,
    authorityRef: string,
    singleUse: bool,
    maxUses: nat,
    used: nat,
    state: LeaseState,
    usable: bool,
    reservations: map<Key, ActionId>)

  type Leases = map<string, Lease>

  /** reserve_use: idempotent per idempotency key. */
  function Reserve(ls: Leases, id: string, key: Key, use: ActionId): Result<Leases> {
    if id !in ls || !ls[id].usable || ls[id].state == LeaseReleased then Err(LeaseRejected)
    else
      var l := ls[id];
      if l.action != (if use.BindUse? then BindAction else CheckpointAction) then Err(LeaseRejected)
      else if key in l.reservations then
        if l.reservations[key] == use then Ok(ls) else Err(LeaseRejected)
      else if l.used >= l.maxUses then Err(LeaseRejected)
      else Ok(ls[id := l.(used := l.used + 1, state := LeaseConsumed, reservations := l.reservations[key := use])])
  }

  /** finalize: only a single-use lease is actually released. */
  function Finalize(ls: Leases, id: string): Result<Leases> {
    if id !in ls then Err(LeaseUnknown)
    else if ls[id].state == LeaseReleased then Ok(ls)
    else if ls[id].state != LeaseConsumed then Err(LeaseRejected)
    else if ls[id].singleUse then Ok(ls[id := ls[id].(state := LeaseReleased)])
    else Ok(ls)
  }

  /** The state a lease is left in by a successful `Finalize`. */
  predicate Settled(l: Lease) {
    l.state == LeaseReleased || (l.state == LeaseConsumed && !l.singleUse)
  }
}
