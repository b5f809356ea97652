/**
 Any number of calls in any interleaving, with crashes at any point: every
 reachable state satisfies the invariant, and the registry only moves forward.
 */
module InstanceRuns {
  import opened Prelude
  import opened InstanceContracts
  import opened InstanceTables
  import opened InstanceEffects
  import opened InstanceProtocol
  import opened InstanceChain
  import opened InstanceInvariant
  import opened InstanceCalls
  import opened InstanceDriveSteps
  import opened InstanceSteps

  datatype System = System(w: World, calls: seq<Pc>)

  /** What may happen next.  A crash forgets every call in flight; a lost call is a crash of its thread alone. */
  datatype Happening =
    | Start(pc: Pc)
    | Advance(call: nat)
    | Lose(call: nat)
    | Crash
    | Issue(id: string, lease: Lease)
    | Revoke(id: string)
    | Release(id: string)

  /** A call begins at its entry; it may not quote a version that its binding has not reached. */
  ghost predicate EntersWell(w: World, pc: Pc) {
    match pc
    case Prepare(p) => p.Lookup?
    case Bridge(p) => p.AttachCommit? || (p.AckRead? && ExpectedOk(w, p.ack.binding, p.ack.expected))
    case Checkpoint(p) => p.ReadBinding? && ExpectedOk(w, p.cmd.binding, p.cmd.expected)
    case Replace(p) => p.ReadPrevious?
    case Recover(p) => p.ReadLatest?
    case Reconcile(_) | Drive(_) | Done(_) => false
  }

  /** issue, for the fields of a lease that are modelled. */
  predicate Issuable(ls: Leases, id: string, l: Lease) {
    && id !in ls && l.state == LeaseActive && l.used == 0 && l.maxUses > 0 && l.reservations == map[]
    && (l.singleUse ==> l.maxUses == 1)
  }

  /** What happens to leases outside the calls: they are issued, revoked or run out, and released. */
  function LeasesAfter(ls: Leases, h: Happening): Leases {
    match h
    case Issue(id, l) => if Issuable(ls, id, l) then ls[id := l] else ls
    case Revoke(id) => if id in ls then ls[id := ls[id].(usable := false)] else ls
    case Release(id) => if id in ls then ls[id := ls[id].(state := LeaseReleased)] else ls
    case _ => ls
  }

  lemma LeasesAfterOk(ls: Leases, h: Happening)
    requires LeasesOk(ls)
    ensures LeasesOk(LeasesAfter(ls, h)) && LeasesLater(ls, LeasesAfter(ls, h))
  {
  }

  ghost function After(s: System, h: Happening): System {
    match h
    case Start(pc) => if EntersWell(s.w, pc) then s.(calls := s.calls + [pc]) else s
    case Advance(i) =>
      if i < |s.calls| then
        var r := Step(s.w, s.calls[i]);
        System(r.0, s.calls[i := r.1])
      else s
    case Lose(i) => if i < |s.calls| then s.(calls := s.calls[..i] + s.calls[i + 1..]) else s
    case Crash => s.(calls := [])
    case Issue(_, _) => s.(w := s.w.(leases := LeasesAfter(s.w.leases, h)))
    case Revoke(_) => s.(w := s.w.(leases := LeasesAfter(s.w.leases, h)))
    case Release(_) => s.(w := s.w.(leases := LeasesAfter(s.w.leases, h)))
  }

  ghost function Exec(s: System, hs: seq<Happening>): System {
    if hs == [] then s else After(Exec(s, DropLast(hs)), Last(hs))
  }

  function Initial(profiles: map<string, Profile>): System {
    System(World(profiles, EMPTY, map[], map[]), [])
  }

  ghost predicate CallsOk(w: World, calls: seq<Pc>) {
    forall i :: 0 <= i < |calls| ==> CallInv(w, calls[i])
  }

  ghost predicate SystemInv(s: System) {
    Inv(s.w) && CallsOk(s.w, s.calls)
  }

  lemma InitialOk(profiles: map<string, Profile>)
    ensures SystemInv(Initial(profiles))
  {
  }

  lemma CallsLater(w: World, w': World, calls: seq<Pc>)
    requires CallsOk(w, calls) && Later(w, w') && Inv(w')
    ensures CallsOk(w', calls)
  {
    hide Inv, Later, CallInv, Rows;
    InvRows(w');
    forall i | 0 <= i < |calls| ensures CallInv(w', calls[i]) {
      CallInvLater(w, w', calls[i]);
    }
  }

  lemma EntryInv(w: World, pc: Pc)
    requires EntersWell(w, pc)
    ensures CallInv(w, pc)
  {
    hide ExpectedOk;
  }

  lemma AdvanceOk(s: System, i: nat)
    requires SystemInv(s) && i < |s.calls|
    ensures SystemInv(After(s, Advance(i))) && Later(s.w, After(s, Advance(i)).w)
  {
    hide Inv, Later, CallInv, Step;
    StepLands(s.w, s.calls[i]);
    CallsLater(s.w, Step(s.w, s.calls[i]).0, s.calls);
  }

  lemma LeasesMove(s: System, ls: Leases)
    requires SystemInv(s) && LeasesOk(ls) && LeasesLater(s.w.leases, ls)
    ensures SystemInv(s.(w := s.w.(leases := ls))) && Later(s.w, s.w.(leases := ls))
  {
    hide Inv, Later, CallsOk, LeasesOk, LeasesLater;
    LeaseWriteKeeps(s.w, ls);
    CallsLater(s.w, s.w.(leases := ls), s.calls);
  }

  lemma LeaseEvents(s: System, h: Happening)
    requires SystemInv(s) && (h.Issue? || h.Revoke? || h.Release?)
    ensures SystemInv(After(s, h)) && Later(s.w, After(s, h).w)
  {
    hide Later, SystemInv, LeasesOk, LeasesLater, LeasesAfter;
    SystemLeases(s);
    LeasesAfterOk(s.w.leases, h);
    LeasesMove(s, LeasesAfter(s.w.leases, h));
  }

  lemma SystemLeases(s: System)
    requires SystemInv(s)
    ensures LeasesOk(s.w.leases)
  {
    hide Inv, CallsOk, LeasesOk;
    InvLeases(s.w);
  }

  lemma AfterOk(s: System, h: Happening)
    requires SystemInv(s)
    ensures SystemInv(After(s, h)) && Later(s.w, After(s, h).w)
  {
    hide Inv, Later, CallInv, Step, EntersWell, Issuable;
    LaterRefl(s.w);
    match h
    case Start(pc) => if EntersWell(s.w, pc) { EntryInv(s.w, pc); }
    case Advance(i) => if i < |s.calls| { AdvanceOk(s, i); }
    case Lose(_) =>
    case Crash =>
    case Issue(_, _) => LeaseEvents(s, h);
    case Revoke(_) => LeaseEvents(s, h);
    case Release(_) => LeaseEvents(s, h);
  }

  lemma {:induction false} ExecOk(s: System, hs: seq<Happening>)
    requires SystemInv(s)
    ensures SystemInv(Exec(s, hs)) && Later(s.w, Exec(s, hs).w)
  {
    hide SystemInv, Later, After;
    if hs == [] {
      LaterRefl(s.w);
    } else {
      ExecOk(s, DropLast(hs));
      AfterOk(Exec(s, DropLast(hs)), Last(hs));
      LaterTrans(s.w, Exec(s, DropLast(hs)).w, Exec(s, hs).w);
    }
  }

  /** A world that some run of the system has reached. */
  ghost predicate Reachable(w: World) {
    exists hs: seq<Happening> :: Exec(Initial(w.profiles), hs).w == w
  }

  lemma ReachableInv(w: World)
    requires Reachable(w)
    ensures Inv(w)
  {
    hide Inv, CallsOk, Exec;
    var hs: seq<Happening> :| Exec(Initial(w.profiles), hs).w == w;
    InitialOk(w.profiles);
    ExecOk(Initial(w.profiles), hs);
  }
}
