/**
 The keyset pages of CommandInstanceViews.list_instances: newest first, ties by
 binding id, continued from a cursor that remembers the first page's clock.
 */
module KeysetPages {
  import opened Prelude

  datatype Phase = AwaitingPlatform | BootstrapAcknowledged | ReplacementPending | Recovered

  /** A projected row.  Creation time, id and scope never change; the rest may, between two pages. */
  datatype Row = Row(
    createdAt: int, id: nat, mission: string, ocs: string,
    status: string, phases: set<Phase>, current: bool)

  datatype Filter = Filter(
    mission: Option<string>, ocs: Option<string>, status: Option<string>, phase: Option<Phase>, recoveryOnly: bool)

  datatype Cursor = Cursor(filter: Filter, snapshotAt: int, lastCreatedAt: int, lastId: nat)

  datatype Page = Page(items: seq<Row>, total: nat, next: Option<Cursor>) | ScopeMismatch

  /** ORDER BY created_at DESC, binding_id ASC. */
  predicate Before(a: Row, b: Row) {
    a.createdAt > b.createdAt || (a.createdAt == b.createdAt && a.id < b.id)
  }

  predicate ScopeMatches(r: Row, f: Filter) {
    (f.mission.None? || f.mission.value == r.mission) && (f.ocs.None? || f.ocs.value == r.ocs)
  }

  predicate Matches(r: Row, f: Filter) {
    && ScopeMatches(r, f)
    && (f.status.None? || f.status.value == r.status)
    && (f.phase.None? || f.phase.value in r.phases)
    && (f.recoveryOnly ==>
          r.status in {"hold", "revoked", "replaced"} || ReplacementPending in r.phases || Recovered in r.phases || !r.current)
  }

  /** A filter on mission and OCS only. */
  predicate ScopeOnly(f: Filter) {
    f.status.None? && f.phase.None? && !f.recoveryOnly
  }

  // ---------------------------------------------------------------- the query

  function Insert(s: seq<Row>, r: Row): seq<Row> {
    if s == [] then [r]
    else if Before(r, s[0]) then [r] + s
    else [s[0]] + Insert(s[1..], r)
  }

  /** The rows that match and were created by `snapshotAt`, in page order. */
  function Listing(table: seq<Row>, f: Filter, snapshotAt: int): seq<Row> {
    if table == [] then []
    else
      var rest := Listing(DropLast(table), f, snapshotAt);
      if Last(table).createdAt <= snapshotAt && Matches(Last(table), f) then Insert(rest, Last(table)) else rest
  }

  predicate After(r: Row, c: Cursor) {
    r.createdAt < c.lastCreatedAt || (r.createdAt == c.lastCreatedAt && r.id > c.lastId)
  }

  function Beyond(items: seq<Row>, c: Cursor): seq<Row> {
    if items == [] then []
    else (if After(items[0], c) then [items[0]] else []) + Beyond(items[1..], c)
  }

  /** list_instances. */
  function List(table: seq<Row>, f: Filter, cursor: Option<Cursor>, limit: nat, clock: int): Page {
    if cursor.Some? && (cursor.value.filter != f || cursor.value.snapshotAt > clock) then ScopeMismatch
    else
      var snapshotAt := if cursor.Some? then cursor.value.snapshotAt else clock;
      var all := Listing(table, f, snapshotAt);
      var candidates := if cursor.Some? then Beyond(all, cursor.value) else all;
      var selected := if |candidates| > limit then candidates[..limit] else candidates;
      var next :=
        if |candidates| > limit && selected != [] then Some(Cursor(f, snapshotAt, Last(selected).createdAt, Last(selected).id)) else None;
      Page(selected, |all|, next)
  }

  // ---------------------------------------------------------------- tables

  /** Binding ids are unique. */
  predicate Keyed(table: seq<Row>) {
    forall i, j :: 0 <= i < j < |table| ==> table[i].id != table[j].id
  }

  predicate Ordered(s: seq<Row>) {
    forall i, j :: 0 <= i < j < |s| ==> Before(s[i], s[j])
  }

  lemma {:induction false} InsertOrdered(s: seq<Row>, r: Row)
    requires Ordered(s) && forall x :: x in s ==> x.id != r.id
    ensures Ordered(Insert(s, r))
    ensures forall x :: x in Insert(s, r) <==> x == r || x in s
  {
    if s == [] {
    } else if Before(r, s[0]) {
      assert Insert(s, r) == [r] + s;
    } else {
      InsertOrdered(s[1..], r);
      assert forall x :: x in s <==> x == s[0] || x in s[1..];
      assert forall x :: x in Insert(s[1..], r) ==> Before(s[0], x);
    }
  }

  /** The listing holds exactly the matching rows, each once, in order. */
  lemma {:induction false} ListingIs(table: seq<Row>, f: Filter, snapshotAt: int)
    requires Keyed(table)
    ensures Ordered(Listing(table, f, snapshotAt))
    ensures forall r :: r in Listing(table, f, snapshotAt) <==> r in table && r.createdAt <= snapshotAt && Matches(r, f)
  {
    if table != [] {
      var before := DropLast(table);
      ListingIs(before, f, snapshotAt);
      assert table == before + [Last(table)];
      if Last(table).createdAt <= snapshotAt && Matches(Last(table), f) {
        forall x | x in Listing(before, f, snapshotAt) ensures x.id != Last(table).id {
          assert x in before;
          var i :| 0 <= i < |before| && before[i] == x;
          assert table[i].id != table[|table| - 1].id;
        }
        InsertOrdered(Listing(before, f, snapshotAt), Last(table));
      }
    }
  }

  lemma {:induction false} BeyondIs(items: seq<Row>, c: Cursor)
    requires Ordered(items)
    ensures Ordered(Beyond(items, c))
    ensures forall r :: r in Beyond(items, c) <==> r in items && After(r, c)
  {
    if items != [] {
      BeyondIs(items[1..], c);
      assert items == [items[0]] + items[1..];
      assert forall x :: x in items[1..] ==> Before(items[0], x);
    }
  }

  // ---------------------------------------------------------------- following next_cursor

  /** The registry and the clock at the moment a page is read. */
  datatype Reading = Reading(table: seq<Row>, clock: int)

  datatype Walked = Walked(items: seq<Row>, ended: bool)

  /** Page after page, each from the cursor of the page before. */
  function Walk(readings: seq<Reading>, f: Filter, cursor: Option<Cursor>, limit: nat): Walked {
    if readings == [] then Walked([], false)
    else
      match List(readings[0].table, f, cursor, limit, readings[0].clock)
      case ScopeMismatch => Walked([], false)
      case Page(items, _, next) =>
        if next.None? then Walked(items, true)
        else
          var rest := Walk(readings[1..], f, next, limit);
          Walked(items + rest.items, rest.ended)
  }

  predicate AllKeyed(readings: seq<Reading>) {
    forall i :: 0 <= i < |readings| ==> Keyed(readings[i].table)
  }

  lemma PageOrdered(table: seq<Row>, f: Filter, cursor: Option<Cursor>, limit: nat, clock: int)
    requires Keyed(table)
    ensures var p := List(table, f, cursor, limit, clock);
            p.Page? ==>
              && Ordered(p.items)
              && (cursor.Some? ==> forall r :: r in p.items ==> After(r, cursor.value))
              && (p.next.Some? ==> p.items != [] && p.next.value.lastCreatedAt == Last(p.items).createdAt
                                   && p.next.value.lastId == Last(p.items).id && |p.items| == limit)
  {
    var snapshotAt := if cursor.Some? then cursor.value.snapshotAt else clock;
    ListingIs(table, f, snapshotAt);
    if cursor.Some? {
      BeyondIs(Listing(table, f, snapshotAt), cursor.value);
    }
  }

  /** Whatever the filter and however the table changes between pages, no row comes twice, and rows come in order. */
  lemma {:induction false} NothingTwice(readings: seq<Reading>, f: Filter, cursor: Option<Cursor>, limit: nat)
    requires AllKeyed(readings)
    ensures Ordered(Walk(readings, f, cursor, limit).items)
    ensures cursor.Some? ==> forall r :: r in Walk(readings, f, cursor, limit).items ==> After(r, cursor.value)
    decreases |readings|
  {
    hide List, After, Before;
    if readings != [] {
      PageOrdered(readings[0].table, f, cursor, limit, readings[0].clock);
      var p := List(readings[0].table, f, cursor, limit, readings[0].clock);
      if p.Page? && p.next.Some? {
        assert AllKeyed(readings[1..]);
        NothingTwice(readings[1..], f, p.next, limit);
        Joined(p.items, Walk(readings[1..], f, p.next, limit).items, p.next.value, cursor);
      }
    }
  }

  /** A page, followed by rows beyond its last one. */
  lemma Joined(items: seq<Row>, rest: seq<Row>, next: Cursor, cursor: Option<Cursor>)
    requires Ordered(items) && Ordered(rest) && items != []
    requires next.lastCreatedAt == Last(items).createdAt && next.lastId == Last(items).id
    requires forall r :: r in rest ==> After(r, next)
    requires cursor.Some? ==> forall r :: r in items ==> After(r, cursor.value)
    ensures Ordered(items + rest)
    ensures cursor.Some? ==> forall r :: r in items + rest ==> After(r, cursor.value)
  {
    forall r | r in rest ensures Before(Last(items), r) && (cursor.Some? ==> After(r, cursor.value)) {
      assert After(r, next);
      assert cursor.Some? ==> After(Last(items), cursor.value);
    }
    forall i, j | 0 <= i < |items| && 0 <= j < |rest| ensures Before(items[i], rest[j]) {
      assert rest[j] in rest;
      assert i < |items| - 1 ==> Before(items[i], items[|items| - 1]);
    }
  }

  // ---------------------------------------------------------------- the pages partition the snapshot

  datatype RowKey = RowKey(createdAt: int, id: nat, mission: string, ocs: string)

  function KeyOf(r: Row): RowKey {
    RowKey(r.createdAt, r.id, r.mission, r.ocs)
  }

  function Keys(s: seq<Row>): (ks: seq<RowKey>)
    ensures |ks| == |s| && forall i :: 0 <= i < |s| ==> ks[i] == KeyOf(s[i])
  {
    if s == [] then [] else [KeyOf(s[0])] + Keys(s[1..])
  }

  /** Known bindings keep what never changes; the rest is new, and newer than the snapshot. */
  predicate Evolves(before: seq<Row>, after: seq<Row>, snapshotAt: int) {
    && |before| <= |after|
    && (forall i :: 0 <= i < |before| ==> KeyOf(after[i]) == KeyOf(before[i]))
    && (forall i :: |before| <= i < |after| ==> after[i].createdAt > snapshotAt)
  }

  lemma {:induction false} InsertKeys(s: seq<Row>, s': seq<Row>, r: Row, r': Row)
    requires Keys(s) == Keys(s') && KeyOf(r) == KeyOf(r')
    ensures Keys(Insert(s, r)) == Keys(Insert(s', r'))
  {
    if s != [] {
      assert KeyOf(s[0]) == Keys(s)[0] == Keys(s')[0] == KeyOf(s'[0]);
      assert Keys(s)[1..] == Keys(s[1..]) && Keys(s')[1..] == Keys(s'[1..]);
      if Before(r, s[0]) {
        assert ([r] + s)[1..] == s && ([r'] + s')[1..] == s';
      } else {
        InsertKeys(s[1..], s'[1..], r, r');
        assert ([s[0]] + Insert(s[1..], r))[1..] == Insert(s[1..], r);
        assert ([s'[0]] + Insert(s'[1..], r'))[1..] == Insert(s'[1..], r');
      }
    } else {
      assert s' == [];
    }
  }

  /** A filter on mission and OCS sees the same keys in the same order for ever. */
  lemma {:induction false} ListingStays(before: seq<Row>, after: seq<Row>, f: Filter, snapshotAt: int)
    requires ScopeOnly(f) && Evolves(before, after, snapshotAt)
    ensures Keys(Listing(after, f, snapshotAt)) == Keys(Listing(before, f, snapshotAt))
    decreases |after|
  {
    if |after| > |before| {
      ListingStays(before, DropLast(after), f, snapshotAt);
    } else if before != [] {
      ListingStays(DropLast(before), DropLast(after), f, snapshotAt);
      var r, r' := Last(before), Last(after);
      assert KeyOf(r') == KeyOf(r);
      if r.createdAt <= snapshotAt && ScopeMatches(r, f) {
        InsertKeys(Listing(DropLast(after), f, snapshotAt), Listing(DropLast(before), f, snapshotAt), r', r);
      }
    }
  }

  lemma {:induction false} BeyondAll(items: seq<Row>, c: Cursor)
    requires forall r :: r in items ==> After(r, c)
    ensures Beyond(items, c) == items
  {
    if items != [] {
      BeyondAll(items[1..], c);
    }
  }

  /** Beyond the k-th row come the rows from k on. */
  lemma {:induction false} BeyondDrops(items: seq<Row>, k: nat, c: Cursor)
    requires Ordered(items) && 1 <= k <= |items|
    requires c.lastCreatedAt == items[k - 1].createdAt && c.lastId == items[k - 1].id
    ensures Beyond(items, c) == items[k..]
  {
    if k == 1 {
      forall r | r in items[1..] ensures After(r, c) {
        var i :| 0 <= i < |items[1..]| && items[1..][i] == r;
        assert Before(items[0], items[i + 1]);
      }
      BeyondAll(items[1..], c);
    } else {
      assert Before(items[0], items[k - 1]);
      BeyondDrops(items[1..], k - 1, c);
      assert items[1..][k - 1..] == items[k..];
    }
  }

  /** Every page is read from the first table as it has evolved, no earlier than the first page. */
  predicate Continues(first: seq<Row>, snapshotAt: int, readings: seq<Reading>) {
    forall i :: 0 <= i < |readings| ==>
      Keyed(readings[i].table) && Evolves(first, readings[i].table, snapshotAt) && readings[i].clock >= snapshotAt
  }

  /** The cursor stands behind the k-th row of the listing. */
  predicate StandsAt(ks: seq<RowKey>, k: nat, c: Cursor) {
    1 <= k <= |ks| && c.lastCreatedAt == ks[k - 1].createdAt && c.lastId == ks[k - 1].id
  }

  lemma KeysSlice(s: seq<Row>, i: nat, j: nat)
    requires i <= j <= |s|
    ensures Keys(s[i..j]) == Keys(s)[i..j]
  {
  }

  /** What is left of the listing behind row k. */
  lemma LeftFrom(first: seq<Row>, reading: Reading, f: Filter, c: Cursor, k: nat)
    requires ScopeOnly(f) && Keyed(reading.table) && Evolves(first, reading.table, c.snapshotAt)
    requires StandsAt(Keys(Listing(first, f, c.snapshotAt)), k, c)
    ensures var all := Listing(reading.table, f, c.snapshotAt);
            Keys(all) == Keys(Listing(first, f, c.snapshotAt)) && k <= |all| && Beyond(all, c) == all[k..]
  {
    hide Listing, Evolves, Keyed;
    var all := Listing(reading.table, f, c.snapshotAt);
    ListingIs(reading.table, f, c.snapshotAt);
    ListingStays(first, reading.table, f, c.snapshotAt);
    assert Keys(all)[k - 1] == KeyOf(all[k - 1]);
    BeyondDrops(all, k, c);
  }

  lemma LastKey(all: seq<Row>, n: nat)
    requires 1 <= n <= |all|
    ensures Keys(all)[n - 1].createdAt == all[n - 1].createdAt && Keys(all)[n - 1].id == all[n - 1].id
  {
    assert Keys(all)[n - 1] == KeyOf(all[n - 1]);
  }

  /** The page cut from a listing behind row k. */
  lemma CutPage(all: seq<Row>, k: nat, f: Filter, snapshotAt: int, limit: nat, selected: seq<Row>)
    requires k <= |all| && limit >= 1
    requires selected == if |all| - k > limit then all[k..][..limit] else all[k..]
    ensures |all| - k > limit ==>
              && Keys(selected) == Keys(all)[k..k + limit] && selected != []
              && StandsAt(Keys(all), k + limit, Cursor(f, snapshotAt, Last(selected).createdAt, Last(selected).id))
    ensures |all| - k <= limit ==> Keys(selected) == Keys(all)[k..]
  {
    hide Keys, KeyOf;
    if |all| - k > limit {
      assert all[k..][..limit] == all[k..k + limit];
      LastKey(all, k + limit);
      KeysSlice(all, k, k + limit);
    } else {
      assert all[k..] == all[k..|all|];
      KeysSlice(all, k, |all|);
    }
  }

  /** One page from behind row k: the next rows, and the end exactly when there are no more. */
  ghost predicate PageIs(p: Page, ks: seq<RowKey>, k: nat, f: Filter, snapshotAt: int, limit: nat)
    requires k <= |ks|
  {
    && p.Page?
    && (p.next.None? ==> |ks| <= k + limit && Keys(p.items) == ks[k..])
    && (p.next.Some? ==>
          && k + limit < |ks| && Keys(p.items) == ks[k..k + limit]
          && p.next.value.filter == f && p.next.value.snapshotAt == snapshotAt && StandsAt(ks, k + limit, p.next.value))
  }

  lemma PageFrom(first: seq<Row>, reading: Reading, f: Filter, c: Cursor, k: nat, limit: nat)
    requires ScopeOnly(f) && limit >= 1 && c.filter == f
    requires Keyed(reading.table) && Evolves(first, reading.table, c.snapshotAt) && reading.clock >= c.snapshotAt
    requires StandsAt(Keys(Listing(first, f, c.snapshotAt)), k, c)
    ensures PageIs(List(reading.table, f, Some(c), limit, reading.clock), Keys(Listing(first, f, c.snapshotAt)), k, f, c.snapshotAt, limit)
  {
    hide Listing, Evolves, Keyed, Beyond, StandsAt, Keys;
    Positioned(Keys(Listing(first, f, c.snapshotAt)), k, c);
    LeftFrom(first, reading, f, c, k);
    var all := Listing(reading.table, f, c.snapshotAt);
    var selected := if |all| - k > limit then all[k..][..limit] else all[k..];
    CutPage(all, k, f, c.snapshotAt, limit, selected);
  }

  lemma Positioned(ks: seq<RowKey>, k: nat, c: Cursor)
    requires StandsAt(ks, k, c)
    ensures 1 <= k <= |ks|
  {
  }

  /** How many rows that many pages can hold. */
  function Capacity(pages: nat, limit: nat): nat {
    if pages == 0 then 0 else limit + Capacity(pages - 1, limit)
  }

  lemma {:induction false} CapacityIs(pages: nat, limit: nat)
    ensures Capacity(pages, limit) == pages * limit
  {
    if pages > 0 {
      CapacityIs(pages - 1, limit);
      assert pages * limit == (pages - 1) * limit + limit;
    }
  }

  ghost predicate WalkIs(walked: Walked, pages: nat, ks: seq<RowKey>, k: nat, limit: nat)
    requires k <= |ks|
  {
    && (walked.ended ==> Keys(walked.items) == ks[k..])
    && (pages > 0 && Capacity(pages, limit) >= |ks| - k ==> walked.ended)
  }

  lemma {:induction false} WalkFrom(first: seq<Row>, readings: seq<Reading>, f: Filter, c: Cursor, k: nat, limit: nat)
    requires ScopeOnly(f) && limit >= 1 && c.filter == f && Continues(first, c.snapshotAt, readings)
    requires StandsAt(Keys(Listing(first, f, c.snapshotAt)), k, c)
    ensures k <= |Keys(Listing(first, f, c.snapshotAt))|
    ensures WalkIs(Walk(readings, f, Some(c), limit), |readings|, Keys(Listing(first, f, c.snapshotAt)), k, limit)
    decreases |readings|
  {
    hide List, Listing, Evolves, Keyed, StandsAt, Keys;
    var ks := Keys(Listing(first, f, c.snapshotAt));
    Positioned(ks, k, c);
    if readings != [] {
      PageFrom(first, readings[0], f, c, k, limit);
      var p := List(readings[0].table, f, Some(c), limit, readings[0].clock);
      if p.next.Some? {
        WalkFrom(first, readings[1..], f, p.next.value, k + limit, limit);
        JoinWalk(p, Walk(readings[1..], f, p.next, limit), ks, k, limit, |readings| - 1);
      }
    }
  }

  /** A full page and the walk behind it. */
  lemma JoinWalk(p: Page, rest: Walked, ks: seq<RowKey>, k: nat, limit: nat, pages: nat)
    requires k + limit < |ks| && p.Page? && Keys(p.items) == ks[k..k + limit] && WalkIs(rest, pages, ks, k + limit, limit)
    ensures WalkIs(Walked(p.items + rest.items, rest.ended), pages + 1, ks, k, limit)
  {
    hide Keys;
    KeysJoin(p.items, rest.items);
    assert Capacity(0, limit) == 0 && Capacity(pages + 1, limit) == limit + Capacity(pages, limit);
    assert ks[k..k + limit] + ks[k + limit..] == ks[k..];
  }

  lemma KeysJoin(a: seq<Row>, b: seq<Row>)
    ensures Keys(a + b) == Keys(a) + Keys(b)
  {
  }

  /**
   For mission and OCS filters, following next_cursor from the first page to the
   end yields the first page's snapshot: every binding once and in order, no
   matter what is inserted or updated meanwhile.  It ends once enough pages are read.
   */
  lemma PagesPartition(first: Reading, later: seq<Reading>, f: Filter, limit: nat)
    requires ScopeOnly(f) && limit >= 1 && Keyed(first.table) && Continues(first.table, first.clock, later)
    ensures var ks := Keys(Listing(first.table, f, first.clock)); var walked := Walk([first] + later, f, None, limit);
            && (walked.ended ==> Keys(walked.items) == ks)
            && ((|later| + 1) * limit >= |ks| ==> walked.ended)
    ensures Ordered(Listing(first.table, f, first.clock))
    ensures forall r :: r in Listing(first.table, f, first.clock) <==> r in first.table && r.createdAt <= first.clock && ScopeMatches(r, f)
  {
    hide Evolves, Keys, StandsAt, Listing, Ordered, Keyed;
    ListingIs(first.table, f, first.clock);
    var all := Listing(first.table, f, first.clock);
    var selected := if |all| > limit then all[0..][..limit] else all[0..];
    assert all[0..] == all;
    CutPage(all, 0, f, first.clock, limit, selected);
    var p := List(first.table, f, None, limit, first.clock);
    assert p.Page? && p.items == selected;
    assert ([first] + later)[1..] == later;
    assert Keys(all)[0..] == Keys(all);
    CapacityIs(|later| + 1, limit);
    if p.next.Some? {
      WalkFrom(first.table, later, f, p.next.value, limit, limit);
      JoinWalk(p, Walk(later, f, p.next, limit), Keys(all), 0, limit, |later|);
    }
  }
}
