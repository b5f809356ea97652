/**
 The economic governor of app/trading_runtime/economics.py: reservations, their
 reconciliation or rollback, and the limits they are held against.  Decimals
 are reals; a uuid is the next unused number.
 */
module Economics {
  import opened Prelude

  datatype Policy = Policy(daily: real, monthly: real, run: real, signal: real, cycleCallLimit: int, strongModelLimit: int)

  datatype Reservation = Reservation(expected: real, strong: bool)

  /** The governor's fields as a value. */
  datatype Books = Books(
    spentDaily: real, spentMonthly: real, spentRun: real,
    callsThisCycle: int, strongCallsToday: int,
    reserved: real, reservations: map<nat, Reservation>, issued: nat)

  datatype Op =
    | Reserve(cost: real, strong: bool)
    | Reconcile(id: nat, actual: real, strong: bool)
    | Rollback(id: nat)

  function StrongIds(m: map<nat, Reservation>): set<nat> {
    set id | id in m && m[id].strong
  }

  function StrongOutstanding(m: map<nat, Reservation>): nat {
    |StrongIds(m)|
  }

  predicate Affordable(p: Policy, b: Books, cost: real, strong: bool) {
    && 0.0 <= cost <= p.signal
    && b.callsThisCycle < p.cycleCallLimit
    && (strong ==> b.strongCallsToday + StrongOutstanding(b.reservations) < p.strongModelLimit)
    && b.spentDaily + b.reserved + cost <= p.daily
    && b.spentMonthly + b.reserved + cost <= p.monthly
    && b.spentRun + b.reserved + cost <= p.run
  }

  function Step(p: Policy, b: Books, op: Op): (Books, bool) {
    match op
    case Reserve(cost, strong) =>
      if !Affordable(p, b, cost, strong) then (b, false)
      else (b.(reservations := b.reservations[b.issued := Reservation(cost, strong)], issued := b.issued + 1,
               reserved := b.reserved + cost, callsThisCycle := b.callsThisCycle + 1), true)
    case Reconcile(id, actual, strong) =>
      if id !in b.reservations || actual < 0.0 || strong != b.reservations[id].strong then (b, false)
      else (b.(reservations := b.reservations - {id}, reserved := b.reserved - b.reservations[id].expected,
               spentDaily := b.spentDaily + actual, spentMonthly := b.spentMonthly + actual, spentRun := b.spentRun + actual,
               strongCallsToday := if strong then b.strongCallsToday + 1 else b.strongCallsToday), true)
    case Rollback(id) =>
      if id !in b.reservations then (b, false)
      else (b.(reservations := b.reservations - {id}, reserved := b.reserved - b.reservations[id].expected), true)
  }

  // ---------------------------------------------------------------- sums over the outstanding reservations

  ghost function Expected(m: map<nat, Reservation>): real
    decreases |m|
  {
    if m == map[] then 0.0
    else
      var id :| id in m;
      assert (m - {id}).Keys == m.Keys - {id} && |(m - {id}).Keys| < |m.Keys|;
      m[id].expected + Expected(m - {id})
  }

  /** The sum does not depend on which reservation is taken first. */
  lemma {:induction false} ExpectedWithout(m: map<nat, Reservation>, id: nat)
    requires id in m
    ensures Expected(m) == m[id].expected + Expected(m - {id})
    decreases |m|
  {
    var first :| first in m && Expected(m) == m[first].expected + Expected(m - {first});
    if first != id {
      var rest, without := m - {first}, m - {id};
      assert rest.Keys == m.Keys - {first} && |rest.Keys| < |m.Keys|;
      assert without.Keys == m.Keys - {id} && |without.Keys| < |m.Keys|;
      ExpectedWithout(rest, id);
      ExpectedWithout(without, first);
      assert rest - {id} == without - {first};
    }
  }

  lemma ExpectedWith(m: map<nat, Reservation>, id: nat, r: Reservation)
    requires id !in m
    ensures Expected(m[id := r]) == r.expected + Expected(m)
  {
    ExpectedWithout(m[id := r], id);
    assert m[id := r] - {id} == m;
  }

  lemma StrongWith(m: map<nat, Reservation>, id: nat, r: Reservation)
    requires id !in m
    ensures StrongOutstanding(m[id := r]) == StrongOutstanding(m) + (if r.strong then 1 else 0)
  {
    assert StrongIds(m[id := r]) == if r.strong then StrongIds(m) + {id} else StrongIds(m);
  }

  lemma StrongWithout(m: map<nat, Reservation>, id: nat)
    requires id in m
    ensures StrongOutstanding(m) == StrongOutstanding(m - {id}) + (if m[id].strong then 1 else 0)
  {
    StrongWith(m - {id}, id, m[id]);
    assert (m - {id})[id := m[id]] == m;
  }

  // ---------------------------------------------------------------- what a run keeps

  function Max(a: real, b: real): real {
    if a >= b then a else b
  }

  function MaxInt(a: int, b: int): int {
    if a >= b then a else b
  }

  /** What a successful reconciliation costs beyond what was reserved for it. */
  function Overrun(p: Policy, b: Books, op: Op): real {
    if op.Reconcile? && Step(p, b, op).1 then Max(0.0, op.actual - b.reservations[op.id].expected) else 0.0
  }

  function Spending(p: Policy, b: Books, op: Op): real {
    if op.Reconcile? && Step(p, b, op).1 then op.actual else 0.0
  }

  datatype Ledger = Ledger(books: Books, overrun: real, spending: real, reserves: nat)

  function Run(p: Policy, b: Books, ops: seq<Op>): Ledger {
    if ops == [] then Ledger(b, 0.0, 0.0, 0)
    else
      var l := Run(p, b, DropLast(ops));
      var op := Last(ops);
      Ledger(Step(p, l.books, op).0, l.overrun + Overrun(p, l.books, op), l.spending + Spending(p, l.books, op),
             l.reserves + if op.Reserve? && Step(p, l.books, op).1 then 1 else 0)
  }

  /** `_reserved` is the sum of the outstanding expected costs. */
  ghost predicate Conserved(b: Books) {
    && b.reserved == Expected(b.reservations)
    && (forall id :: id in b.reservations ==> b.reservations[id].expected >= 0.0 && id < b.issued)
  }

  /** Every limit holds, up to the overrun and to what was spent before the run. */
  predicate Bounded(p: Policy, start: Books, l: Ledger) {
    && l.books.spentDaily + l.books.reserved <= Max(p.daily, start.spentDaily) + l.overrun
    && l.books.spentMonthly + l.books.reserved <= Max(p.monthly, start.spentMonthly) + l.overrun
    && l.books.spentRun + l.books.reserved <= Max(p.run, start.spentRun) + l.overrun
    && l.books.strongCallsToday + StrongOutstanding(l.books.reservations) <= MaxInt(p.strongModelLimit, start.strongCallsToday)
    && l.books.callsThisCycle <= MaxInt(p.cycleCallLimit, start.callsThisCycle)
  }

  /** The totals move together, by exactly what was reconciled. */
  predicate Accounted(start: Books, l: Ledger) {
    && l.books.spentDaily == start.spentDaily + l.spending
    && l.books.spentMonthly == start.spentMonthly + l.spending
    && l.books.spentRun == start.spentRun + l.spending
    && l.books.callsThisCycle == start.callsThisCycle + l.reserves
    && l.overrun >= 0.0
  }

  lemma StepConserves(p: Policy, b: Books, op: Op)
    requires Conserved(b)
    ensures Conserved(Step(p, b, op).0)
  {
    match op
    case Reserve(cost, strong) => ExpectedWith(b.reservations, b.issued, Reservation(cost, strong));
    case Reconcile(id, _, _) => if id in b.reservations { ExpectedWithout(b.reservations, id); }
    case Rollback(id) => if id in b.reservations { ExpectedWithout(b.reservations, id); }
  }

  lemma StepBounds(p: Policy, start: Books, l: Ledger, op: Op)
    requires Conserved(l.books) && Bounded(p, start, l) && l.overrun >= 0.0
    ensures var l' := Ledger(Step(p, l.books, op).0, l.overrun + Overrun(p, l.books, op), l.spending, l.reserves);
            Bounded(p, start, l')
  {
    var m := l.books.reservations;
    match op
    case Reserve(cost, strong) => StrongWith(m, l.books.issued, Reservation(cost, strong));
    case Reconcile(id, _, _) => if id in m { StrongWithout(m, id); }
    case Rollback(id) => if id in m { StrongWithout(m, id); }
  }

  /** In any sequence of reserve, reconcile and rollback from books with nothing outstanding. */
  lemma {:induction false} GovernorBounds(p: Policy, start: Books, ops: seq<Op>)
    requires start.reservations == map[] && start.reserved == 0.0
    ensures var l := Run(p, start, ops); Conserved(l.books) && Bounded(p, start, l) && Accounted(start, l)
  {
    hide Step, Bounded, Conserved;
    if ops == [] {
      StartsBounded(p, start);
    } else {
      GovernorBounds(p, start, DropLast(ops));
      var l := Run(p, start, DropLast(ops));
      StepConserves(p, l.books, Last(ops));
      StepBounds(p, start, l, Last(ops));
      StepAccounts(p, l.books, Last(ops));
      BoundedIgnores(p, start, Step(p, l.books, Last(ops)).0, l, Run(p, start, ops), Last(ops));
    }
  }

  lemma BoundedIgnores(p: Policy, start: Books, b: Books, l: Ledger, r: Ledger, op: Op)
    requires Bounded(p, start, Ledger(b, l.overrun + Overrun(p, l.books, op), l.spending, l.reserves))
    requires r.books == b && r.overrun == l.overrun + Overrun(p, l.books, op)
    ensures Bounded(p, start, r)
  {
  }

  lemma StartsBounded(p: Policy, start: Books)
    requires start.reservations == map[] && start.reserved == 0.0
    ensures Conserved(start) && Bounded(p, start, Ledger(start, 0.0, 0.0, 0))
  {
    assert StrongIds(start.reservations) == {};
  }

  lemma StepAccounts(p: Policy, b: Books, op: Op)
    ensures var b' := Step(p, b, op).0;
            && b'.spentDaily == b.spentDaily + Spending(p, b, op)
            && b'.spentMonthly == b.spentMonthly + Spending(p, b, op)
            && b'.spentRun == b.spentRun + Spending(p, b, op)
            && b'.callsThisCycle == b.callsThisCycle + (if op.Reserve? && Step(p, b, op).1 then 1 else 0)
            && Overrun(p, b, op) >= 0.0
  {
  }

  /** A reservation is settled once: afterwards its id is refused and nothing moves, whatever happens in between. */
  lemma {:induction false} SettledOnce(p: Policy, b: Books, id: nat, op: Op, ops: seq<Op>, again: Op)
    requires Conserved(b) && (op.Reconcile? || op.Rollback?) && op.id == id && Step(p, b, op).1
    requires (again.Reconcile? || again.Rollback?) && again.id == id
    ensures var l := Run(p, Step(p, b, op).0, ops);
            id !in l.books.reservations && id < l.books.issued && Step(p, l.books, again) == (l.books, false)
  {
    if ops != [] {
      SettledOnce(p, b, id, op, DropLast(ops), again);
    }
  }

  // ---------------------------------------------------------------- the governor

  class EconomicGovernor {
    const policy: Policy
    var spentDaily: real
    var spentMonthly: real
    var spentRun: real
    var callsThisCycle: int
    var strongCallsToday: int
    var reserved: real
    var reservations: map<nat, Reservation>
    var issued: nat

    function Contents(): Books
      reads this
    {
      Books(spentDaily, spentMonthly, spentRun, callsThisCycle, strongCallsToday, reserved, reservations, issued)
    }

    constructor (policy: Policy)
      ensures this.policy == policy && Contents() == Books(0.0, 0.0, 0.0, 0, 0, 0.0, map[], 0)
    {
      this.policy := policy;
      spentDaily, spentMonthly, spentRun := 0.0, 0.0, 0.0;
      callsThisCycle, strongCallsToday := 0, 0;
      reserved, reservations, issued := 0.0, map[], 0;
    }

    method ReserveCost(cost: real, strong: bool) returns (id: Option<nat>)
      modifies this
      ensures (Contents(), id.Some?) == Step(policy, old(Contents()), Reserve(cost, strong))
      ensures id.Some? ==> id.value == old(issued) && id.value in reservations
    {
      if cost < 0.0 || cost > policy.signal {
        return None;
      }
      if callsThisCycle >= policy.cycleCallLimit {
        return None;
      }
      if strong && strongCallsToday + StrongOutstanding(reservations) >= policy.strongModelLimit {
        return None;
      }
      var projected := reserved + cost;
      if spentDaily + projected > policy.daily {
        return None;
      }
      if spentMonthly + projected > policy.monthly {
        return None;
      }
      if spentRun + projected > policy.run {
        return None;
      }
      id := Some(issued);
      reservations := reservations[issued := Reservation(cost, strong)];
      issued := issued + 1;
      reserved := reserved + cost;
      callsThisCycle := callsThisCycle + 1;
    }

    method ReconcileCost(id: nat, actual: real, strong: bool) returns (ok: bool)
      modifies this
      ensures (Contents(), ok) == Step(policy, old(Contents()), Reconcile(id, actual, strong))
    {
      if id !in reservations {
        return false;
      }
      var reservation := reservations[id];
      if actual < 0.0 || strong != reservation.strong {
        return false;
      }
      reservations := reservations - {id};
      reserved := reserved - reservation.expected;
      spentDaily := spentDaily + actual;
      spentMonthly := spentMonthly + actual;
      spentRun := spentRun + actual;
      if reservation.strong {
        strongCallsToday := strongCallsToday + 1;
      }
      return true;
    }

    method RollbackCost(id: nat) returns (ok: bool)
      modifies this
      ensures (Contents(), ok) == Step(policy, old(Contents()), Rollback(id))
    {
      if id !in reservations {
        return false;
      }
      reserved := reserved - reservations[id].expected;
      reservations := reservations - {id};
      return true;
    }
  }
}
