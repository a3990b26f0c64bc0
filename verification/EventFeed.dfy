/** The event list: `check_event_permission` and `get_events_for_user` of
    `app/domains/tenant/service.py`, over the rows `app/domains/tenant/tenant_repository.py`
    reads. */
module FeedModel {
  import opened TripModel

  /** A row of `event_class_map`. */
  datatype Mapping = Mapping(id: Id, class_: Id)

  /** An event as the repository returns it. `M` is the list of its class mappings: a value here,
      a mutable list in the service. */
  datatype Row<M> = Row(id: Id, date: int, status: Status, createdBy: Id, mappings: M)

  type Listing = Row<seq<Mapping>>

  // ------------------------------------------------------------------
  // Who may read an event
  // ------------------------------------------------------------------

  const OVERRIDES: set<string> := {"super_admin", "school_admin", "admin", "*"}

  /** `check_event_permission(user, event, "read")`. The mappings the repository selects carry no
      head teacher, so a draft is read by its owner alone. */
  predicate Readable<M>(actor: Actor, row: Row<M>) {
    || actor.roles * OVERRIDES != {}
    || (if row.status.Draft? then row.createdBy == actor.id
        else
          || (actor.roles * {"parent", "student"} != {} && row.status.Published?)
          || actor.roles * {"teacher", "event_teacher", "manager", "event:read"} != {})
  }

  predicate HeadsClassOf(headed: set<Id>, mappings: seq<Mapping>) {
    exists i :: 0 <= i < |mappings| && mappings[i].class_ in headed
  }

  /** Who may read an event: the holder of an override, the owner of a draft, staff once it is no
      draft, and parents and students once it is published. */
  lemma WhoMayRead<M>(actor: Actor, row: Row<M>, r: string)
    ensures r in actor.roles && r in {"super_admin", "school_admin", "admin", "*"} ==> Readable(actor, row)
    ensures r in actor.roles && r in {"teacher", "event_teacher", "manager", "event:read"} && row.status != Draft ==>
      Readable(actor, row)
    ensures r in actor.roles && r in {"parent", "student"} && row.status == Published ==> Readable(actor, row)
    ensures row.status == Draft && row.createdBy == actor.id ==> Readable(actor, row)
    ensures Readable(actor, row) ==>
      || (exists q :: q in actor.roles && q in {"super_admin", "school_admin", "admin", "*"})
      || (row.status == Draft && row.createdBy == actor.id)
      || (row.status != Draft &&
          exists q :: q in actor.roles && q in {"teacher", "event_teacher", "manager", "event:read"})
      || (row.status == Published && exists q :: q in actor.roles && q in {"parent", "student"})
  {
    SomeoneOf(actor.roles, OVERRIDES, r);
    SomeoneOf(actor.roles, {"parent", "student"}, r);
    SomeoneOf(actor.roles, {"teacher", "event_teacher", "manager", "event:read"}, r);
  }

  lemma SomeoneOf(roles: set<string>, names: set<string>, r: string)
    ensures r in roles && r in names ==> roles * names != {}
    ensures roles * names != {} ==> exists q :: q in roles && q in names
  {
    if r in roles && r in names {
      assert r in roles * names;
    }
    if roles * names != {} {
      var q :| q in roles * names;
    }
  }

  // ------------------------------------------------------------------
  // Merging the lists of a parent's children
  // ------------------------------------------------------------------

  function Ids(mappings: seq<Mapping>): set<Id> { set m | m in mappings :: m.id }

  /** The mappings whose ids are not `known`. */
  function Unknown(mappings: seq<Mapping>, known: set<Id>): seq<Mapping> {
    if mappings == [] then []
    else (if mappings[0].id in known then [] else [mappings[0]]) + Unknown(mappings[1..], known)
  }

  function Position<M>(rows: seq<Row<M>>, id: Id): (k: nat)
    ensures k <= |rows| && (k < |rows| ==> rows[k].id == id)
    ensures forall i :: 0 <= i < k ==> rows[i].id != id
  {
    if rows == [] || rows[0].id == id then 0 else 1 + Position(rows[1..], id)
  }

  /** One row enters `events_dict`, which keeps its insertion order. */
  function MergeRow(merged: seq<Listing>, row: Listing): seq<Listing> {
    var k := Position(merged, row.id);
    if k == |merged| then merged + [row]
    else
      var known := merged[k].mappings;
      merged[k := merged[k].(mappings := known + Unknown(row.mappings, Ids(known)))]
  }

  function Merge(merged: seq<Listing>, rows: seq<Listing>): seq<Listing>
    decreases |rows|
  {
    if rows == [] then merged else Merge(MergeRow(merged, rows[0]), rows[1..])
  }

  function ReadableRows<M>(actor: Actor, rows: seq<Row<M>>): seq<Row<M>> {
    if rows == [] then []
    else (if Readable(actor, rows[0]) then [rows[0]] else []) + ReadableRows(actor, rows[1..])
  }

  /** All children's readable rows, child by child. */
  function ChildRows(actor: Actor, children: seq<seq<Listing>>): seq<Listing> {
    if children == [] then [] else ReadableRows(actor, children[0]) + ChildRows(actor, children[1..])
  }

  // ------------------------------------------------------------------
  // Sorting
  // ------------------------------------------------------------------

  ghost predicate Ascending<M>(rows: seq<Row<M>>) {
    forall i, j :: 0 <= i < j < |rows| ==> rows[i].date <= rows[j].date
  }

  function Insert<M>(rows: seq<Row<M>>, row: Row<M>): (r: seq<Row<M>>)
    ensures |r| == |rows| + 1
  {
    if rows == [] || row.date < rows[0].date then [row] + rows else [rows[0]] + Insert(rows[1..], row)
  }

  /** `sorted(..., key=date)`: a stable sort. */
  function Sorted<M>(rows: seq<Row<M>>): (r: seq<Row<M>>)
    ensures |r| == |rows|
  {
    if rows == [] then [] else Insert(Sorted(rows[..|rows| - 1]), rows[|rows| - 1])
  }

  /** The rows of one date, in order. */
  ghost function OnDate<M>(rows: seq<Row<M>>, date: int): seq<Row<M>> {
    if rows == [] then [] else (if rows[0].date == date then [rows[0]] else []) + OnDate(rows[1..], date)
  }

  lemma {:induction false} OnDateAppend<M>(a: seq<Row<M>>, b: seq<Row<M>>, date: int)
    ensures OnDate(a + b, date) == OnDate(a, date) + OnDate(b, date)
  {
    if a == [] {
      assert a + b == b;
    } else {
      assert (a + b)[1..] == a[1..] + b;
      OnDateAppend(a[1..], b, date);
      var head := if a[0].date == date then [a[0]] else [];
      assert head + (OnDate(a[1..], date) + OnDate(b, date)) == (head + OnDate(a[1..], date)) + OnDate(b, date);
    }
  }

  lemma {:induction false} NoneOnEarlierDate<M>(rows: seq<Row<M>>, date: int)
    requires forall i :: 0 <= i < |rows| ==> date < rows[i].date
    ensures OnDate(rows, date) == []
  {
    if rows != [] {
      NoneOnEarlierDate(rows[1..], date);
    }
  }

  lemma {:induction false} InsertMembers<M>(rows: seq<Row<M>>, row: Row<M>, x: Row<M>)
    ensures x in Insert(rows, row) <==> x == row || x in rows
  {
    if rows != [] && row.date >= rows[0].date {
      InsertMembers(rows[1..], row, x);
      assert rows == [rows[0]] + rows[1..];
    }
  }

  lemma {:induction false} InsertKeepsOrder<M>(rows: seq<Row<M>>, row: Row<M>)
    requires Ascending(rows)
    ensures Ascending(Insert(rows, row))
  {
    if rows == [] || row.date < rows[0].date {
      assert Insert(rows, row)[1..] == rows;
    } else {
      InsertKeepsOrder(rows[1..], row);
      var r := Insert(rows[1..], row);
      assert rows == [rows[0]] + rows[1..];
      forall i | 0 <= i < |r| ensures rows[0].date <= r[i].date {
        InsertMembers(rows[1..], row, r[i]);
      }
      assert Insert(rows, row) == [rows[0]] + r;
    }
  }

  lemma {:induction false} InsertIsStable<M>(rows: seq<Row<M>>, row: Row<M>, date: int)
    requires Ascending(rows)
    ensures OnDate(Insert(rows, row), date) == OnDate(rows, date) + (if row.date == date then [row] else [])
  {
    if rows == [] || row.date < rows[0].date {
      assert Insert(rows, row)[1..] == rows;
      if row.date == date {
        NoneOnEarlierDate(rows, date);
      }
    } else {
      InsertIsStable(rows[1..], row, date);
      assert Insert(rows, row)[1..] == Insert(rows[1..], row);
    }
  }

  /** The sort puts dates in order and keeps, date by date, the very rows it was given in the
      order it was given them; so it is a permutation and stable. */
  lemma {:induction false} SortIsStable<M>(rows: seq<Row<M>>, date: int)
    ensures Ascending(Sorted(rows)) && OnDate(Sorted(rows), date) == OnDate(rows, date)
    ensures forall r :: r in Sorted(rows) <==> r in rows
    decreases |rows|
  {
    if rows != [] {
      var init, last := rows[..|rows| - 1], rows[|rows| - 1];
      SortIsStable(init, date);
      InsertKeepsOrder(Sorted(init), last);
      InsertIsStable(Sorted(init), last, date);
      assert rows == init + [last];
      forall r: Row<M> ensures r in Insert(Sorted(init), last) <==> r == last || r in init {
        InsertMembers(Sorted(init), last, r);
      }
      OnDateAppend(init, [last], date);
      assert OnDate([last][1..], date) == [];
    }
  }

  // ------------------------------------------------------------------
  // The feed
  // ------------------------------------------------------------------

  predicate Listed<M>(rows: seq<Row<M>>, id: Id) { exists i :: 0 <= i < |rows| && rows[i].id == id }

  /** Appends the rows whose id is not in the list yet. */
  function AppendNew<M>(listed: seq<Row<M>>, rows: seq<Row<M>>): seq<Row<M>>
    decreases |rows|
  {
    if rows == [] then listed
    else AppendNew(if Listed(listed, rows[0].id) then listed else listed + [rows[0]], rows[1..])
  }

  function TeacherRows(actor: Actor, all: seq<Listing>, headed: set<Id>): seq<Listing> {
    if all == [] then []
    else (if Readable(actor, all[0]) || HeadsClassOf(headed, all[0].mappings) then [all[0]] else [])
         + TeacherRows(actor, all[1..], headed)
  }

  /** The roles that get every readable event. */
  predicate Oversees(actor: Actor) {
    "super_admin" in actor.roles || "school_admin" in actor.roles || "manager" in actor.roles
      || "event_teacher" in actor.roles
  }

  /** What the database answers: every event, the classes the caller heads, the caller's own
      list as a student, and one list per linked child. */
  datatype Answers<M> = Answers(all: seq<Row<M>>, headed: set<Id>, own: seq<Row<M>>, children: seq<seq<Row<M>>>)

  function Gathered(actor: Actor, a: Answers<seq<Mapping>>): seq<Listing> {
    var teacher := if "teacher" in actor.roles then AppendNew([], TeacherRows(actor, a.all, a.headed)) else [];
    var student := if "student" in actor.roles then AppendNew(teacher, ReadableRows(actor, a.own)) else teacher;
    if "parent" in actor.roles then AppendNew(student, Merge([], ChildRows(actor, a.children))) else student
  }

  function Feed(actor: Actor, a: Answers<seq<Mapping>>): seq<Listing> {
    if Oversees(actor) then ReadableRows(actor, a.all) else Sorted(Gathered(actor, a))
  }

  // ------------------------------------------------------------------
  // Each event once, by date
  // ------------------------------------------------------------------

  ghost predicate Distinct<M>(rows: seq<Row<M>>) { forall i, j :: 0 <= i < j < |rows| ==> rows[i].id != rows[j].id }

  lemma {:induction false} AppendNewIsExact<M>(listed: seq<Row<M>>, rows: seq<Row<M>>)
    requires Distinct(listed)
    ensures Distinct(AppendNew(listed, rows))
    ensures forall id :: Listed(AppendNew(listed, rows), id) <==> Listed(listed, id) || Listed(rows, id)
    ensures forall r :: r in AppendNew(listed, rows) ==> r in listed || r in rows
    decreases |rows|
  {
    if rows != [] {
      var next := if Listed(listed, rows[0].id) then listed else listed + [rows[0]];
      AppendNewIsExact(next, rows[1..]);
      forall id ensures Listed(rows, id) <==> rows[0].id == id || Listed(rows[1..], id) {
        ListedSplit(rows, id);
      }
      forall id ensures Listed(next, id) <==> Listed(listed, id) || rows[0].id == id {
        if next != listed {
          ListedAppend(listed, rows[0], id);
        }
      }
    }
  }

  lemma ListedSplit<M>(rows: seq<Row<M>>, id: Id)
    requires rows != []
    ensures Listed(rows, id) <==> rows[0].id == id || Listed(rows[1..], id)
  {
    if i :| 0 <= i < |rows| && rows[i].id == id {
      if i > 0 {
        assert rows[1..][i - 1].id == id;
      }
    }
    if i :| 0 <= i < |rows| - 1 && rows[1..][i].id == id {
      assert rows[i + 1].id == id;
    }
  }

  lemma ListedAppend<M>(rows: seq<Row<M>>, row: Row<M>, id: Id)
    ensures Listed(rows + [row], id) <==> Listed(rows, id) || row.id == id
  {
    var all := rows + [row];
    if i :| 0 <= i < |all| && all[i].id == id {
      assert i < |rows| ==> rows[i].id == id;
    }
    if i :| 0 <= i < |rows| && rows[i].id == id {
      assert all[i].id == id;
    }
    assert all[|rows|] == row;
  }

  lemma GatheredIsDistinct(actor: Actor, a: Answers<seq<Mapping>>)
    ensures Distinct(Gathered(actor, a))
  {
    var teacher := if "teacher" in actor.roles then AppendNew([], TeacherRows(actor, a.all, a.headed)) else [];
    AppendNewIsExact([], TeacherRows(actor, a.all, a.headed));
    var student := if "student" in actor.roles then AppendNew(teacher, ReadableRows(actor, a.own)) else teacher;
    AppendNewIsExact(teacher, ReadableRows(actor, a.own));
    AppendNewIsExact(student, Merge([], ChildRows(actor, a.children)));
  }

  lemma {:induction false} InsertKeepsDistinct<M>(rows: seq<Row<M>>, row: Row<M>)
    requires Ascending(rows) && Distinct(rows) && !Listed(rows, row.id)
    ensures Distinct(Insert(rows, row))
  {
    if rows != [] && row.date >= rows[0].date {
      forall id ensures Listed(rows, id) <==> rows[0].id == id || Listed(rows[1..], id) {
        ListedSplit(rows, id);
      }
      InsertKeepsDistinct(rows[1..], row);
      InsertKeepsOrder(rows[1..], row);
      var r := Insert(rows[1..], row);
      forall i | 0 <= i < |r| ensures r[i].id != rows[0].id {
        InsertMembers(rows[1..], row, r[i]);
      }
    } else {
      assert forall i :: 0 <= i < |rows| ==> rows[i].id != row.id;
    }
  }

  lemma {:induction false} SortKeepsDistinct<M>(rows: seq<Row<M>>)
    requires Distinct(rows)
    ensures Distinct(Sorted(rows))
    decreases |rows|
  {
    if rows != [] {
      var init, last := rows[..|rows| - 1], rows[|rows| - 1];
      SortKeepsDistinct(init);
      SortIsStable(init, 0);
      SameListed(Sorted(init), init, last.id);
      assert forall i :: 0 <= i < |init| ==> init[i] == rows[i];
      assert !Listed(init, last.id);
      InsertKeepsDistinct(Sorted(init), last);
    }
  }

  /** Whoever is not an overseer gets each event once, by ascending date. */
  lemma FeedIsOrdered(actor: Actor, a: Answers<seq<Mapping>>)
    requires !Oversees(actor)
    ensures Ascending(Feed(actor, a)) && Distinct(Feed(actor, a))
  {
    GatheredIsDistinct(actor, a);
    SortIsStable(Gathered(actor, a), 0);
    SortKeepsDistinct(Gathered(actor, a));
  }

  /** The four kinds of overseer get every event they may read, in the order given. */
  lemma OverseersSeeAll(actor: Actor, a: Answers<seq<Mapping>>, row: Listing)
    requires exists r :: r in actor.roles && r in {"super_admin", "school_admin", "manager", "event_teacher"}
    ensures row in Feed(actor, a) <==> row in a.all && Readable(actor, row)
  {
    ReadableRowsAreExact(actor, a.all, row);
  }

  lemma OnlyFourOversee(actor: Actor)
    ensures Oversees(actor) <==>
      exists r :: r in actor.roles && r in {"super_admin", "school_admin", "manager", "event_teacher"}
  {
    if Oversees(actor) {
      var r := if "super_admin" in actor.roles then "super_admin"
               else if "school_admin" in actor.roles then "school_admin"
               else if "manager" in actor.roles then "manager" else "event_teacher";
      assert r in actor.roles;
    }
  }

  // ------------------------------------------------------------------
  // What a parent sees
  // ------------------------------------------------------------------

  /** A child's list has a readable row of this event. */
  ghost predicate ChildHas(actor: Actor, children: seq<seq<Listing>>, row: Listing) {
    exists c :: 0 <= c < |children| && row in children[c] && Readable(actor, row)
  }

  lemma {:induction false} ReadableRowsAreExact<M>(actor: Actor, rows: seq<Row<M>>, row: Row<M>)
    ensures row in ReadableRows(actor, rows) <==> row in rows && Readable(actor, row)
  {
    if rows != [] {
      ReadableRowsAreExact(actor, rows[1..], row);
      assert rows == [rows[0]] + rows[1..];
    }
  }

  lemma {:induction false} ChildRowsAreExact(actor: Actor, children: seq<seq<Listing>>, row: Listing)
    ensures row in ChildRows(actor, children) <==> ChildHas(actor, children, row)
  {
    if children != [] {
      ReadableRowsAreExact(actor, children[0], row);
      ChildRowsAreExact(actor, children[1..], row);
      if c :| 0 <= c < |children| && row in children[c] && Readable(actor, row) {
        if c > 0 {
          assert row in children[1..][c - 1];
        }
      }
      if c :| 0 <= c < |children| - 1 && row in children[1..][c] && Readable(actor, row) {
        assert row in children[c + 1];
      }
    }
  }

  /** `merged` is a faithful merge of `rows`: one entry per event among them, which is the event's
      first row with the mappings of all of its rows. */
  ghost predicate MergeOf(merged: seq<Listing>, rows: seq<Listing>) {
    && Distinct(merged)
    && (forall r :: r in rows ==> Listed(merged, r.id))
    && (forall k :: 0 <= k < |merged| ==> Covers(merged[k], rows))
  }

  /** The entry is its event's first row in everything but the mappings; it lists mappings of its
      event's rows only, and of every id that one of them has. */
  ghost predicate Covers(entry: Listing, rows: seq<Listing>) {
    && SameEvent(entry, rows)
    && (forall m :: m in entry.mappings ==> GivenBy(rows, entry.id, m))
    && forall m :: m in Ids(entry.mappings) <==> HasMapping(rows, entry.id, m)
  }

  ghost predicate SameEvent(entry: Listing, rows: seq<Listing>) {
    var k := Position(rows, entry.id);
    k < |rows| && entry == rows[k].(mappings := entry.mappings)
  }

  ghost predicate GivenBy(rows: seq<Listing>, event: Id, m: Mapping) {
    exists r :: r in rows && r.id == event && m in r.mappings
  }

  ghost predicate HasMapping(rows: seq<Listing>, event: Id, mapping: Id) {
    exists r :: r in rows && r.id == event && mapping in Ids(r.mappings)
  }

  lemma {:induction false} PositionAppend<M>(rows: seq<Row<M>>, row: Row<M>, id: Id)
    ensures Position(rows + [row], id) ==
      if Position(rows, id) == |rows| && row.id != id then |rows| + 1 else Position(rows, id)
  {
    if rows == [] {
      assert rows + [row] == [row] && Position([row][1..], id) == 0;
    } else {
      assert (rows + [row])[1..] == rows[1..] + [row];
      PositionAppend(rows[1..], row, id);
    }
  }

  lemma SameEventAppend(entry: Listing, rows: seq<Listing>, row: Listing)
    requires SameEvent(entry, rows)
    ensures SameEvent(entry, rows + [row])
  {
    PositionAppend(rows, row, entry.id);
  }

  lemma {:induction false} UnknownIds(mappings: seq<Mapping>, known: set<Id>)
    ensures Ids(Unknown(mappings, known)) == Ids(mappings) - known
  {
    if mappings != [] {
      UnknownIds(mappings[1..], known);
      IdsAppend([mappings[0]], mappings[1..]);
      assert mappings == [mappings[0]] + mappings[1..];
      assert Ids([mappings[0]]) == {mappings[0].id};
      IdsAppend(if mappings[0].id in known then [] else [mappings[0]], Unknown(mappings[1..], known));
    }
  }

  lemma {:induction false} UnknownAreGiven(mappings: seq<Mapping>, known: set<Id>)
    ensures forall m :: m in Unknown(mappings, known) ==> m in mappings
  {
    if mappings != [] {
      UnknownAreGiven(mappings[1..], known);
    }
  }

  lemma IdsAppend(a: seq<Mapping>, b: seq<Mapping>)
    ensures Ids(a + b) == Ids(a) + Ids(b)
  {
    forall x ensures x in Ids(a + b) <==> x in Ids(a) + Ids(b) {
      if x in Ids(a) + Ids(b) {
        var m :| (m in a || m in b) && m.id == x;
        assert m in a + b;
      }
    }
  }

  /** Merging one more row keeps the merge faithful. */
  lemma MergeRowIsFaithful(merged: seq<Listing>, rows: seq<Listing>, row: Listing)
    requires MergeOf(merged, rows)
    ensures MergeOf(MergeRow(merged, row), rows + [row])
  {
    var k, rows' := Position(merged, row.id), rows + [row];
    var merged' := MergeRow(merged, row);
    forall i | 0 <= i < |merged| && i != k ensures Covers(merged[i], rows') {
      OthersStayCovered(merged[i], rows, row);
    }
    if k == |merged| {
      NewEntryCovers(merged, rows, row);
      forall r | r in rows' ensures Listed(merged', r.id) {
        ListedAppend(merged, row, r.id);
      }
    } else {
      UnknownIds(row.mappings, Ids(merged[k].mappings));
      IdsAppend(merged[k].mappings, Unknown(row.mappings, Ids(merged[k].mappings)));
      UnknownAreGiven(row.mappings, Ids(merged[k].mappings));
      GrownEntryCovers(merged[k], merged'[k], rows, row);
      forall r | r in rows' ensures Listed(merged', r.id) {
        assert merged'[k].id == row.id;
        if r in rows {
          var i :| 0 <= i < |merged| && merged[i].id == r.id;
          assert merged'[i].id == r.id;
        }
      }
    }
  }

  lemma OthersStayCovered(entry: Listing, rows: seq<Listing>, row: Listing)
    requires Covers(entry, rows) && entry.id != row.id
    ensures Covers(entry, rows + [row])
  {
    SameEventAppend(entry, rows, row);
    forall m | m in entry.mappings ensures GivenBy(rows + [row], entry.id, m) {
      GivenByAppend(rows, row, entry.id, m);
    }
    forall m ensures HasMapping(rows, entry.id, m) <==> HasMapping(rows + [row], entry.id, m) {
      HasMappingAppend(rows, row, entry.id, m);
    }
  }

  lemma GivenByAppend(rows: seq<Listing>, row: Listing, event: Id, m: Mapping)
    ensures GivenBy(rows, event, m) || (row.id == event && m in row.mappings) ==> GivenBy(rows + [row], event, m)
  {
    if r :| r in rows && r.id == event && m in r.mappings {
      assert r in rows + [row];
    }
    assert row in rows + [row];
  }

  lemma HasMappingAppend(rows: seq<Listing>, row: Listing, event: Id, m: Id)
    ensures HasMapping(rows + [row], event, m) <==>
      HasMapping(rows, event, m) || (row.id == event && m in Ids(row.mappings))
  {
    assert forall r :: r in rows + [row] <==> r in rows || r == row;
    if HasMapping(rows, event, m) {
      var r :| r in rows && r.id == event && m in Ids(r.mappings);
      assert r in rows + [row];
    }
    if row.id == event && m in Ids(row.mappings) {
      assert row in rows + [row];
    }
  }

  lemma NewEntryCovers(merged: seq<Listing>, rows: seq<Listing>, row: Listing)
    requires MergeOf(merged, rows) && Position(merged, row.id) == |merged|
    ensures Covers(row, rows + [row])
  {
    NobodyHasIt(merged, rows, row.id);
    PositionAppend(rows, row, row.id);
    forall m | m in row.mappings ensures GivenBy(rows + [row], row.id, m) {
      GivenByAppend(rows, row, row.id, m);
    }
    forall m ensures m in Ids(row.mappings) <==> HasMapping(rows + [row], row.id, m) {
      HasMappingAppend(rows, row, row.id, m);
      MappedIsListed(merged, rows, row.id, m);
    }
  }

  lemma NobodyHasIt(merged: seq<Listing>, rows: seq<Listing>, event: Id)
    requires MergeOf(merged, rows) && Position(merged, event) == |merged|
    ensures Position(rows, event) == |rows|
  {
    var k := Position(rows, event);
    assert k < |rows| ==> Listed(merged, rows[k].id);
  }

  lemma MappedIsListed(merged: seq<Listing>, rows: seq<Listing>, event: Id, m: Id)
    requires MergeOf(merged, rows)
    ensures HasMapping(rows, event, m) ==> Position(merged, event) < |merged|
  {
    if HasMapping(rows, event, m) {
      var r :| r in rows && r.id == event && m in Ids(r.mappings);
      assert Listed(merged, r.id);
    }
  }

  lemma GrownEntryCovers(entry: Listing, grown: Listing, rows: seq<Listing>, row: Listing)
    requires Covers(entry, rows) && entry.id == row.id && grown == entry.(mappings := grown.mappings)
    requires forall m :: m in grown.mappings ==> m in entry.mappings || m in row.mappings
    requires Ids(grown.mappings) == Ids(entry.mappings) + Ids(row.mappings)
    ensures Covers(grown, rows + [row])
  {
    SameEventAppend(entry, rows, row);
    forall m | m in grown.mappings ensures GivenBy(rows + [row], grown.id, m) {
      GivenByAppend(rows, row, row.id, m);
    }
    forall m ensures m in Ids(grown.mappings) <==> HasMapping(rows + [row], grown.id, m) {
      HasMappingAppend(rows, row, row.id, m);
    }
  }

  lemma {:induction false} MergeIsFaithful(merged: seq<Listing>, done: seq<Listing>, rows: seq<Listing>)
    requires MergeOf(merged, done)
    ensures MergeOf(Merge(merged, rows), done + rows)
    decreases |rows|
  {
    if rows == [] {
      assert done + rows == done;
    } else {
      var next, done' := MergeRow(merged, rows[0]), done + [rows[0]];
      assert done' + rows[1..] == done + rows;
      MergeRowIsFaithful(merged, done, rows[0]);
      MergeIsFaithful(next, done', rows[1..]);
    }
  }

  ghost predicate NoRepeats(mappings: seq<Mapping>) {
    forall i, j :: 0 <= i < j < |mappings| ==> mappings[i].id != mappings[j].id
  }

  lemma {:induction false} UnknownHasNoRepeats(mappings: seq<Mapping>, known: set<Id>)
    requires NoRepeats(mappings)
    ensures NoRepeats(Unknown(mappings, known))
  {
    if mappings != [] {
      UnknownHasNoRepeats(mappings[1..], known);
      UnknownIds(mappings[1..], known);
      var rest := Unknown(mappings[1..], known);
      forall i | 0 <= i < |rest| ensures rest[i].id != mappings[0].id {
        assert rest[i].id in Ids(rest);
      }
    }
  }

  lemma {:induction false} MergeHasNoRepeats(merged: seq<Listing>, rows: seq<Listing>)
    requires forall r :: r in merged || r in rows ==> NoRepeats(r.mappings)
    ensures forall r :: r in Merge(merged, rows) ==> NoRepeats(r.mappings)
    decreases |rows|
  {
    if rows != [] {
      var row, next := rows[0], MergeRow(merged, rows[0]);
      var k := Position(merged, row.id);
      if k < |merged| {
        var known := merged[k].mappings;
        var added := Unknown(row.mappings, Ids(known));
        assert merged[k] in merged && row in rows;
        UnknownHasNoRepeats(row.mappings, Ids(known));
        UnknownIds(row.mappings, Ids(known));
        forall i, j | 0 <= i < |known| && 0 <= j < |added| ensures known[i].id != added[j].id {
          assert known[i].id in Ids(known) && added[j].id in Ids(added);
        }
        assert NoRepeats(known + added);
      }
      MergeHasNoRepeats(next, rows[1..]);
    }
  }

  ghost predicate ParentOnly(actor: Actor) {
    && "parent" in actor.roles && "teacher" !in actor.roles && "student" !in actor.roles
    && !Oversees(actor)
  }

  /** The merge has an entry of an event exactly if some child's list has a readable row of it. */
  lemma ChildrenMergeIsExact(actor: Actor, children: seq<seq<Listing>>, id: Id)
    ensures Listed(Merge([], ChildRows(actor, children)), id) <==>
      exists r :: ChildHas(actor, children, r) && r.id == id
    ensures forall r :: r in Merge([], ChildRows(actor, children)) ==> Covers(r, ChildRows(actor, children))
  {
    var rows := ChildRows(actor, children);
    var merged := Merge([], rows);
    MergeIsFaithful([], [], rows);
    assert [] + rows == rows;
    if Listed(merged, id) {
      var k :| 0 <= k < |merged| && merged[k].id == id;
      assert Covers(merged[k], rows);
      ChildRowsAreExact(actor, children, rows[Position(rows, id)]);
    }
    if r :| ChildHas(actor, children, r) && r.id == id {
      ChildRowsAreExact(actor, children, r);
    }
  }

  lemma ParentFeedIsTheMerge(actor: Actor, a: Answers<seq<Mapping>>, id: Id)
    requires ParentOnly(actor)
    ensures forall row :: row in Feed(actor, a) ==> row in Merge([], ChildRows(actor, a.children))
    ensures Listed(Feed(actor, a), id) <==> Listed(Merge([], ChildRows(actor, a.children)), id)
  {
    AppendNewIsExact([], Merge([], ChildRows(actor, a.children)));
    SortIsStable(Gathered(actor, a), 0);
    SameListed(Feed(actor, a), Gathered(actor, a), id);
  }

  /** A parent-only caller sees exactly the events some linked child's list has a readable row
      of; each entry is the event's first such row, with the mappings found through any child. */
  lemma ParentSeesTheChildrensEvents(actor: Actor, a: Answers<seq<Mapping>>, id: Id)
    requires ParentOnly(actor)
    ensures Listed(Feed(actor, a), id) <==> exists r :: ChildHas(actor, a.children, r) && r.id == id
    ensures forall row :: row in Feed(actor, a) ==> Covers(row, ChildRows(actor, a.children))
  {
    ParentFeedIsTheMerge(actor, a, id);
    ChildrenMergeIsExact(actor, a.children, id);
  }

  /** And no mapping comes twice, as no list the repository returns repeats one. */
  lemma ParentSeesNoMappingTwice(actor: Actor, a: Answers<seq<Mapping>>)
    requires ParentOnly(actor)
    requires forall r :: ChildHas(actor, a.children, r) ==> NoRepeats(r.mappings)
    ensures forall row :: row in Feed(actor, a) ==> NoRepeats(row.mappings)
  {
    var rows := ChildRows(actor, a.children);
    ParentFeedIsTheMerge(actor, a, 0);
    forall r | r in rows ensures NoRepeats(r.mappings) {
      ChildRowsAreExact(actor, a.children, r);
    }
    MergeHasNoRepeats([], rows);
  }

  lemma SameListed<M>(a: seq<Row<M>>, b: seq<Row<M>>, id: Id)
    requires forall r :: r in a <==> r in b
    ensures Listed(a, id) <==> Listed(b, id)
  {
    if i :| 0 <= i < |a| && a[i].id == id {
      assert a[i] in b;
      var j :| 0 <= j < |b| && b[j] == a[i];
    }
    if i :| 0 <= i < |b| && b[i].id == id {
      assert b[i] in a;
      var j :| 0 <= j < |a| && a[j] == b[i];
    }
  }

  // ------------------------------------------------------------------
  // What a teacher sees
  // ------------------------------------------------------------------

  predicate TeacherMaySee(actor: Actor, headed: set<Id>, row: Listing) {
    Readable(actor, row) || exists m :: m in row.mappings && m.class_ in headed
  }

  lemma {:induction false} TeacherRowsAreExact(actor: Actor, all: seq<Listing>, headed: set<Id>, row: Listing)
    ensures row in TeacherRows(actor, all, headed) <==> row in all && TeacherMaySee(actor, headed, row)
  {
    if all != [] {
      TeacherRowsAreExact(actor, all[1..], headed, row);
      assert all == [all[0]] + all[1..];
    }
  }

  // ------------------------------------------------------------------
  // What anyone else than an overseer sees
  // ------------------------------------------------------------------

  ghost predicate TeacherHas(actor: Actor, a: Answers<seq<Mapping>>, row: Listing) {
    "teacher" in actor.roles && row in a.all && TeacherMaySee(actor, a.headed, row)
  }

  ghost predicate StudentHas(actor: Actor, a: Answers<seq<Mapping>>, row: Listing) {
    "student" in actor.roles && row in a.own && Readable(actor, row)
  }

  ghost predicate ParentHas(actor: Actor, a: Answers<seq<Mapping>>, row: Listing) {
    "parent" in actor.roles && ChildHas(actor, a.children, row)
  }

  /** What each role contributes, before rows already listed are left out. */
  ghost function TeacherPart(actor: Actor, a: Answers<seq<Mapping>>): seq<Listing> {
    if "teacher" in actor.roles then TeacherRows(actor, a.all, a.headed) else []
  }

  ghost function StudentPart(actor: Actor, a: Answers<seq<Mapping>>): seq<Listing> {
    if "student" in actor.roles then ReadableRows(actor, a.own) else []
  }

  ghost function ParentPart(actor: Actor, a: Answers<seq<Mapping>>): seq<Listing> {
    if "parent" in actor.roles then Merge([], ChildRows(actor, a.children)) else []
  }

  lemma FeedIsThreeParts(actor: Actor, a: Answers<seq<Mapping>>, id: Id)
    requires !Oversees(actor)
    ensures Listed(Feed(actor, a), id) <==>
      Listed(TeacherPart(actor, a), id) || Listed(StudentPart(actor, a), id) || Listed(ParentPart(actor, a), id)
    ensures forall r :: r in Feed(actor, a) ==>
      r in TeacherPart(actor, a) || r in StudentPart(actor, a) || r in ParentPart(actor, a)
  {
    var teacher := AppendNew([], TeacherPart(actor, a));
    AppendNewIsExact([], TeacherPart(actor, a));
    var student := AppendNew(teacher, StudentPart(actor, a));
    AppendNewIsExact(teacher, StudentPart(actor, a));
    AppendNewIsExact(student, ParentPart(actor, a));
    assert Gathered(actor, a) == AppendNew(student, ParentPart(actor, a));
    SortIsStable(Gathered(actor, a), 0);
    SameListed(Feed(actor, a), Gathered(actor, a), id);
  }

  lemma TeacherPartIsExact(actor: Actor, a: Answers<seq<Mapping>>, id: Id)
    ensures Listed(TeacherPart(actor, a), id) <==> exists r :: TeacherHas(actor, a, r) && r.id == id
    ensures forall r :: r in TeacherPart(actor, a) <==> TeacherHas(actor, a, r)
  {
    var rows := TeacherPart(actor, a);
    forall r ensures r in rows <==> TeacherHas(actor, a, r) {
      TeacherRowsAreExact(actor, a.all, a.headed, r);
    }
    ListedMeansIn(rows, id);
  }

  lemma StudentPartIsExact(actor: Actor, a: Answers<seq<Mapping>>, id: Id)
    ensures Listed(StudentPart(actor, a), id) <==> exists r :: StudentHas(actor, a, r) && r.id == id
    ensures forall r :: r in StudentPart(actor, a) <==> StudentHas(actor, a, r)
  {
    var rows := StudentPart(actor, a);
    forall r ensures r in rows <==> StudentHas(actor, a, r) {
      ReadableRowsAreExact(actor, a.own, r);
    }
    ListedMeansIn(rows, id);
  }

  lemma ListedMeansIn<M>(rows: seq<Row<M>>, id: Id)
    ensures Listed(rows, id) <==> exists r :: r in rows && r.id == id
  {
  }

  lemma ParentPartIsExact(actor: Actor, a: Answers<seq<Mapping>>, id: Id)
    ensures Listed(ParentPart(actor, a), id) <==> exists r :: ParentHas(actor, a, r) && r.id == id
    ensures forall r :: r in ParentPart(actor, a) ==> Covers(r, ChildRows(actor, a.children))
  {
    if "parent" in actor.roles {
      ChildrenMergeIsExact(actor, a.children, id);
      assert forall r :: ParentHas(actor, a, r) <==> ChildHas(actor, a.children, r);
    }
  }

  /** Whoever is not an overseer sees an event if and only if, as a teacher, they may read it or
      head a class of it, or, as a student, their own list has a readable row of it, or, as a
      parent, the list of a linked child has; and each entry is such a row, or covers the
      children's rows of its event. */
  lemma EveryoneSeesTheirEvents(actor: Actor, a: Answers<seq<Mapping>>, id: Id)
    requires !Oversees(actor)
    ensures Listed(Feed(actor, a), id) <==>
      || (exists r :: TeacherHas(actor, a, r) && r.id == id)
      || (exists r :: StudentHas(actor, a, r) && r.id == id)
      || (exists r :: ParentHas(actor, a, r) && r.id == id)
    ensures forall r :: r in Feed(actor, a) ==>
      TeacherHas(actor, a, r) || StudentHas(actor, a, r) || Covers(r, ChildRows(actor, a.children))
  {
    FeedIsThreeParts(actor, a, id);
    TeacherPartIsExact(actor, a, id);
    StudentPartIsExact(actor, a, id);
    ParentPartIsExact(actor, a, id);
  }

  /** A teacher who holds no other role sees exactly the events they may read and those mapped to
      a class they head: among them the drafts of others, which the read permission alone denies. */
  lemma TeacherSeesOwnClassesToo(actor: Actor, a: Answers<seq<Mapping>>, id: Id)
    requires "teacher" in actor.roles && "parent" !in actor.roles && "student" !in actor.roles && !Oversees(actor)
    ensures Listed(Feed(actor, a), id) <==> exists r :: r in a.all && r.id == id && TeacherMaySee(actor, a.headed, r)
  {
    EveryoneSeesTheirEvents(actor, a, id);
    assert forall r :: TeacherHas(actor, a, r) <==> r in a.all && TeacherMaySee(actor, a.headed, r);
  }
}

/** The loops of `get_events_for_user`, over mapping lists that are shared by reference. */
module FeedService {
  import opened TripModel
  import opened FeedModel

  /** A Python list of class mappings. */
  class MappingList {
    var items: seq<Mapping>

    constructor (mappings: seq<Mapping>)
      ensures items == mappings
    {
      items := mappings;
    }
  }

  type Fetched = Row<MappingList>

  ghost function View(row: Fetched): Listing
    reads row.mappings
  {
    Row(row.id, row.date, row.status, row.createdBy, row.mappings.items)
  }

  ghost function Lists(rows: seq<Fetched>): set<MappingList> { set r | r in rows :: r.mappings }

  ghost function Views(rows: seq<Fetched>): (v: seq<Listing>)
    reads Lists(rows)
    ensures |v| == |rows| && forall i :: 0 <= i < |rows| ==> v[i] == View(rows[i])
  {
    if rows == [] then [] else [View(rows[0])] + Views(rows[1..])
  }

  ghost function AllLists(children: seq<seq<Fetched>>): set<MappingList> {
    set c, r | c in children && r in c :: r.mappings
  }

  ghost function AllViews(children: seq<seq<Fetched>>): (v: seq<seq<Listing>>)
    reads AllLists(children)
    ensures |v| == |children| && forall i :: 0 <= i < |children| ==> v[i] == Views(children[i])
  {
    if children == [] then [] else [Views(children[0])] + AllViews(children[1..])
  }

  // ------------------------------------------------------------------
  // The parent's merge
  // ------------------------------------------------------------------

  lemma {:induction false} UnknownAppend(a: seq<Mapping>, b: seq<Mapping>, known: set<Id>)
    ensures Unknown(a + b, known) == Unknown(a, known) + Unknown(b, known)
  {
    if a == [] {
      assert a + b == b;
    } else {
      assert (a + b)[1..] == a[1..] + b;
      UnknownAppend(a[1..], b, known);
    }
  }

  /** Appends the mappings whose ids the list did not have. */
  method AppendUnknown(list: MappingList, more: MappingList)
    requires list != more
    modifies list
    ensures list.items == old(list.items) + Unknown(more.items, Ids(old(list.items)))
  {
    var known := set m | m in list.items :: m.id;
    for i := 0 to |more.items|
      invariant list.items == old(list.items) + Unknown(more.items[..i], known)
    {
      assert more.items[..i + 1] == more.items[..i] + [more.items[i]];
      UnknownAppend(more.items[..i], [more.items[i]], known);
      if more.items[i].id !in known {
        list.items := list.items + [more.items[i]];
      }
    }
    assert more.items[..|more.items|] == more.items;
  }

  /** The dictionary's own lists: one per entry, none shared. */
  ghost predicate OwnLists(merged: seq<Fetched>) {
    forall i, j :: 0 <= i < j < |merged| ==> merged[i].mappings != merged[j].mappings
  }

  /** One row enters the dictionary: with a copy of its list, or into the list already there. */
  method MergeOne(merged: seq<Fetched>, row: Fetched) returns (merged': seq<Fetched>)
    requires OwnLists(merged) && row.mappings !in Lists(merged)
    modifies Lists(merged)
    ensures Views(merged') == MergeRow(old(Views(merged)), old(View(row)))
    ensures OwnLists(merged') && forall l :: l in Lists(merged') ==> l in Lists(merged) || fresh(l)
    ensures forall r :: r in merged ==> r in merged'
  {
    ghost var before := Views(merged);
    var k := Position(merged, row.id);
    SamePosition(merged, before, row.id);
    if k == |merged| {
      var copy := new MappingList(row.mappings.items);
      merged' := merged + [row.(mappings := copy)];
      assert Views(merged') == before + [View(row)];
    } else {
      GrowEntry(merged, k, row);
      merged' := merged;
    }
  }

  /** The mappings the entry at `k` does not list yet join it. */
  method GrowEntry(merged: seq<Fetched>, k: nat, row: Fetched)
    requires k < |merged| && OwnLists(merged) && row.mappings !in Lists(merged)
    modifies merged[k].mappings
    ensures var entry, more := old(View(merged[k])), old(row.mappings.items);
      Views(merged) ==
        old(Views(merged))[k := entry.(mappings := entry.mappings + Unknown(more, Ids(entry.mappings)))]
  {
    ghost var before := Views(merged);
    assert merged[k].mappings in Lists(merged);
    AppendUnknown(merged[k].mappings, row.mappings);
    forall i | 0 <= i < |merged| && i != k ensures View(merged[i]) == before[i] {
      assert merged[i].mappings != merged[k].mappings;
    }
  }

  lemma {:induction false} SamePosition<M, N>(rows: seq<Row<M>>, others: seq<Row<N>>, id: Id)
    requires |rows| == |others| && forall i :: 0 <= i < |rows| ==> rows[i].id == others[i].id
    ensures Position(rows, id) == Position(others, id)
  {
    if rows != [] && rows[0].id != id {
      SamePosition(rows[1..], others[1..], id);
    }
  }

  lemma {:induction false} MergeAppend(merged: seq<Listing>, a: seq<Listing>, b: seq<Listing>)
    ensures Merge(merged, a + b) == Merge(Merge(merged, a), b)
    decreases |a|
  {
    if a == [] {
      assert a + b == b;
    } else {
      assert (a + b)[1..] == a[1..] + b;
      MergeAppend(MergeRow(merged, a[0]), a[1..], b);
    }
  }

  lemma {:induction false} ReadableRowsAppend<M>(actor: Actor, a: seq<Row<M>>, b: seq<Row<M>>)
    ensures ReadableRows(actor, a + b) == ReadableRows(actor, a) + ReadableRows(actor, b)
  {
    if a == [] {
      assert a + b == b;
    } else {
      assert (a + b)[1..] == a[1..] + b;
      ReadableRowsAppend(actor, a[1..], b);
      var head := if Readable(actor, a[0]) then [a[0]] else [];
      assert head + (ReadableRows(actor, a[1..]) + ReadableRows(actor, b))
             == (head + ReadableRows(actor, a[1..])) + ReadableRows(actor, b);
    }
  }

  lemma {:induction false} ChildRowsAppend(actor: Actor, a: seq<seq<Listing>>, b: seq<seq<Listing>>)
    ensures ChildRows(actor, a + b) == ChildRows(actor, a) + ChildRows(actor, b)
  {
    if a == [] {
      assert a + b == b;
    } else {
      assert (a + b)[1..] == a[1..] + b;
      ChildRowsAppend(actor, a[1..], b);
    }
  }

  lemma NextReadable(actor: Actor, before: seq<Listing>, rows: seq<Listing>, i: nat)
    requires i < |rows|
    ensures var merged := Merge(before, ReadableRows(actor, rows[..i]));
      Merge(before, ReadableRows(actor, rows[..i + 1])) ==
        if Readable(actor, rows[i]) then MergeRow(merged, rows[i]) else merged
  {
    assert rows[..i + 1] == rows[..i] + [rows[i]];
    ReadableRowsAppend(actor, rows[..i], [rows[i]]);
    assert ReadableRows(actor, [rows[i]]) == if Readable(actor, rows[i]) then [rows[i]] else [] by {
      assert ReadableRows(actor, [rows[i]][1..]) == [];
    }
    MergeAppend(before, ReadableRows(actor, rows[..i]), [rows[i]]);
    var merged := Merge(before, ReadableRows(actor, rows[..i]));
    assert Merge(merged, [rows[i]]) == MergeRow(merged, rows[i]) by {
      assert Merge(MergeRow(merged, rows[i]), [rows[i]][1..]) == MergeRow(merged, rows[i]);
    }
    if !Readable(actor, rows[i]) {
      assert ReadableRows(actor, rows[..i]) + [] == ReadableRows(actor, rows[..i]);
    }
  }

  lemma NextChild(actor: Actor, children: seq<seq<Listing>>, i: nat)
    requires i < |children|
    ensures Merge([], ChildRows(actor, children[..i + 1])) ==
            Merge(Merge([], ChildRows(actor, children[..i])), ReadableRows(actor, children[i]))
  {
    assert children[..i + 1] == children[..i] + [children[i]];
    ChildRowsAppend(actor, children[..i], [children[i]]);
    assert ChildRows(actor, [children[i]]) == ReadableRows(actor, children[i]) by {
      assert ChildRows(actor, [children[i]][1..]) == [];
      assert ReadableRows(actor, children[i]) + [] == ReadableRows(actor, children[i]);
    }
    MergeAppend([], ChildRows(actor, children[..i]), ReadableRows(actor, children[i]));
  }

  /** One child's list is merged; nothing but the dictionary's lists changes. */
  method MergeChild(actor: Actor, merged: seq<Fetched>, rows: seq<Fetched>) returns (merged': seq<Fetched>)
    requires OwnLists(merged) && Lists(merged) !! Lists(rows)
    modifies Lists(merged)
    ensures Views(merged') == Merge(old(Views(merged)), ReadableRows(actor, old(Views(rows))))
    ensures OwnLists(merged') && forall l :: l in Lists(merged') ==> l in Lists(merged) || fresh(l)
  {
    ghost var given, before := Views(rows), Views(merged);
    ghost var ours, theirs := Lists(merged), Lists(rows);
    assert given[..0] == [];
    merged' := merged;
    for i := 0 to |rows|
      invariant OwnLists(merged')
      invariant forall l :: l in Lists(merged') ==> l in ours || fresh(l)
      invariant Lists(merged') !! theirs
      invariant Views(rows) == given
      invariant Views(merged') == Merge(before, ReadableRows(actor, given[..i]))
    {
      NextReadable(actor, before, given, i);
      merged' := MergeAt(actor, merged', rows, i);
    }
    assert given[..|rows|] == given;
  }

  /** Merges the `i`-th row of a child's list, if readable; the list itself stays as it was. */
  method MergeAt(actor: Actor, merged: seq<Fetched>, rows: seq<Fetched>, i: nat) returns (merged': seq<Fetched>)
    requires i < |rows| && OwnLists(merged) && Lists(merged) !! Lists(rows)
    modifies Lists(merged)
    ensures Views(merged') ==
            if Readable(actor, old(Views(rows))[i]) then MergeRow(old(Views(merged)), old(Views(rows))[i])
            else old(Views(merged))
    ensures OwnLists(merged') && Lists(merged') !! Lists(rows) && Views(rows) == old(Views(rows))
    ensures forall l :: l in Lists(merged') ==> l in Lists(merged) || fresh(l)
  {
    assert rows[i].mappings in Lists(rows);
    merged' := merged;
    if Readable(actor, rows[i]) {
      merged' := MergeOne(merged, rows[i]);
    }
  }

  lemma ChildListsAreTheirs(children: seq<seq<Fetched>>, i: nat)
    requires i < |children|
    ensures Lists(children[i]) <= AllLists(children)
  {
  }

  /** Merges the list of the `i`-th child; no child's list changes. */
  method MergeNth(actor: Actor, merged: seq<Fetched>, children: seq<seq<Fetched>>, i: nat)
      returns (merged': seq<Fetched>)
    requires i < |children| && OwnLists(merged) && Lists(merged) !! AllLists(children)
    modifies Lists(merged)
    ensures Views(merged') == Merge(old(Views(merged)), ReadableRows(actor, old(AllViews(children))[i]))
    ensures OwnLists(merged') && Lists(merged') !! AllLists(children) && AllViews(children) == old(AllViews(children))
    ensures forall l :: l in Lists(merged') ==> l in Lists(merged) || fresh(l)
  {
    ChildListsAreTheirs(children, i);
    merged' := MergeChild(actor, merged, children[i]);
  }

  /** The whole merge. It changes no existing list: the per-child lists stay as they were. */
  method MergeChildren(actor: Actor, children: seq<seq<Fetched>>) returns (merged: seq<Fetched>)
    ensures Views(merged) == Merge([], ChildRows(actor, AllViews(children)))
    ensures forall l :: l in Lists(merged) ==> fresh(l)
    ensures AllViews(children) == old(AllViews(children))
  {
    ghost var given := AllViews(children);
    ghost var theirs := AllLists(children);
    assert given[..0] == [];
    merged := [];
    for i := 0 to |children|
      invariant OwnLists(merged)
      invariant forall l :: l in Lists(merged) ==> fresh(l)
      invariant Lists(merged) !! theirs
      invariant AllViews(children) == given
      invariant Views(merged) == Merge([], ChildRows(actor, given[..i]))
    {
      NextChild(actor, given, i);
      merged := MergeNth(actor, merged, children, i);
    }
    assert given[..|children|] == given;
  }

  // ------------------------------------------------------------------
  // The caller's list
  // ------------------------------------------------------------------

  /** A row the teacher's loop keeps. */
  predicate KeepsRow(actor: Actor, headed: set<Id>, row: Fetched)
    reads row.mappings
  {
    Readable(actor, row) || HeadsClassOf(headed, row.mappings.items)
  }

  ghost function KeptRows(actor: Actor, all: seq<Fetched>, headed: set<Id>): seq<Fetched>
    reads Lists(all)
  {
    if all == [] then []
    else (if KeepsRow(actor, headed, all[0]) then [all[0]] else []) + KeptRows(actor, all[1..], headed)
  }

  lemma {:induction false} KeptRowsAppend(actor: Actor, a: seq<Fetched>, b: seq<Fetched>, headed: set<Id>)
    ensures KeptRows(actor, a + b, headed) == KeptRows(actor, a, headed) + KeptRows(actor, b, headed)
  {
    if a == [] {
      assert a + b == b;
    } else {
      assert (a + b)[1..] == a[1..] + b;
      KeptRowsAppend(actor, a[1..], b, headed);
    }
  }

  lemma {:induction false} AppendNewAppend<M>(listed: seq<Row<M>>, a: seq<Row<M>>, b: seq<Row<M>>)
    ensures AppendNew(listed, a + b) == AppendNew(AppendNew(listed, a), b)
    decreases |a|
  {
    if a == [] {
      assert a + b == b;
    } else {
      assert (a + b)[1..] == a[1..] + b;
      AppendNewAppend(if Listed(listed, a[0].id) then listed else listed + [a[0]], a[1..], b);
    }
  }

  lemma AppendNewOne<M>(listed: seq<Row<M>>, row: Row<M>)
    ensures AppendNew(listed, [row]) == if Listed(listed, row.id) then listed else listed + [row]
  {
    var next := if Listed(listed, row.id) then listed else listed + [row];
    assert AppendNew(next, [row][1..]) == next;
  }

  /** The `added` set knows the ids of the rows gathered so far. */
  ghost predicate Knows<M>(added: set<Id>, rows: seq<Row<M>>) { forall id :: id in added <==> Listed(rows, id) }

  lemma KnowsOneMore<M>(added: set<Id>, rows: seq<Row<M>>, row: Row<M>)
    requires Knows(added, rows)
    ensures Knows(added + {row.id}, rows + [row])
  {
    forall id ensures Listed(rows + [row], id) <==> Listed(rows, id) || row.id == id {
      ListedAppend(rows, row, id);
    }
  }

  lemma NextKept(actor: Actor, all: seq<Fetched>, headed: set<Id>, i: nat)
    requires i < |all|
    ensures var listed := AppendNew([], KeptRows(actor, all[..i], headed));
      AppendNew([], KeptRows(actor, all[..i + 1], headed)) ==
      if KeepsRow(actor, headed, all[i]) then AppendNew(listed, [all[i]]) else listed
  {
    assert all[..i + 1] == all[..i] + [all[i]];
    KeptRowsAppend(actor, all[..i], [all[i]], headed);
    assert KeptRows(actor, [all[i]], headed) == if KeepsRow(actor, headed, all[i]) then [all[i]] else [] by {
      assert KeptRows(actor, [all[i]][1..], headed) == [];
    }
    assert KeptRows(actor, all[..i], headed) + [] == KeptRows(actor, all[..i], headed);
    AppendNewAppend([], KeptRows(actor, all[..i], headed), [all[i]]);
  }

  method AddTeacherRows(actor: Actor, all: seq<Fetched>, headed: set<Id>) returns (rows: seq<Fetched>, added: set<Id>)
    ensures Knows(added, rows) && Views(rows) == AppendNew([], TeacherRows(actor, Views(all), headed))
  {
    assert all[..0] == [];
    rows, added := [], {};
    for i := 0 to |all|
      invariant Knows(added, rows)
      invariant rows == AppendNew([], KeptRows(actor, all[..i], headed))
    {
      NextKept(actor, all, headed, i);
      AppendNewOne(rows, all[i]);
      if all[i].id !in added && KeepsRow(actor, headed, all[i]) {
        KnowsOneMore(added, rows, all[i]);
        rows, added := rows + [all[i]], added + {all[i].id};
      }
    }
    assert all[..|all|] == all;
    ViewsOfKept(actor, all, headed);
    ViewsOfAppendNew([], KeptRows(actor, all, headed));
  }

  lemma NextReadableRow(actor: Actor, listed: seq<Fetched>, own: seq<Fetched>, i: nat)
    requires i < |own|
    ensures var before := AppendNew(listed, ReadableRows(actor, own[..i]));
      AppendNew(listed, ReadableRows(actor, own[..i + 1])) ==
        if Readable(actor, own[i]) then AppendNew(before, [own[i]]) else before
  {
    assert own[..i + 1] == own[..i] + [own[i]];
    ReadableRowsAppend(actor, own[..i], [own[i]]);
    assert ReadableRows(actor, [own[i]]) == if Readable(actor, own[i]) then [own[i]] else [] by {
      assert ReadableRows(actor, [own[i]][1..]) == [];
    }
    assert ReadableRows(actor, own[..i]) + [] == ReadableRows(actor, own[..i]);
    AppendNewAppend(listed, ReadableRows(actor, own[..i]), [own[i]]);
  }

  method AddReadableRows(actor: Actor, rows0: seq<Fetched>, added0: set<Id>, own: seq<Fetched>)
    returns (rows: seq<Fetched>, added: set<Id>)
    requires Knows(added0, rows0)
    ensures Knows(added, rows) && Views(rows) == AppendNew(old(Views(rows0)), ReadableRows(actor, old(Views(own))))
  {
    assert own[..0] == [];
    rows, added := rows0, added0;
    for i := 0 to |own|
      invariant Knows(added, rows)
      invariant rows == AppendNew(rows0, ReadableRows(actor, own[..i]))
    {
      NextReadableRow(actor, rows0, own, i);
      AppendNewOne(rows, own[i]);
      if own[i].id !in added && Readable(actor, own[i]) {
        KnowsOneMore(added, rows, own[i]);
        rows, added := rows + [own[i]], added + {own[i].id};
      }
    }
    assert own[..|own|] == own;
    ViewsOfReadable(actor, own);
    ViewsOfAppendNew(rows0, ReadableRows(actor, own));
    SameViews(rows0);
    SameViews(own);
  }

  method AddRows(rows0: seq<Fetched>, added0: set<Id>, more: seq<Fetched>) returns (rows: seq<Fetched>, added: set<Id>)
    requires Knows(added0, rows0)
    ensures Knows(added, rows) && Views(rows) == AppendNew(Views(rows0), Views(more))
  {
    assert more[..0] == [];
    rows, added := rows0, added0;
    for i := 0 to |more|
      invariant Knows(added, rows)
      invariant rows == AppendNew(rows0, more[..i])
    {
      assert more[..i + 1] == more[..i] + [more[i]];
      AppendNewAppend(rows0, more[..i], [more[i]]);
      AppendNewOne(rows, more[i]);
      if more[i].id !in added {
        KnowsOneMore(added, rows, more[i]);
        rows, added := rows + [more[i]], added + {more[i].id};
      }
    }
    assert more[..|more|] == more;
    ViewsOfAppendNew(rows0, more);
  }

  /** Lists nobody wrote to look as they did. */
  twostate lemma SameViews(rows: seq<Fetched>)
    requires forall r :: r in rows ==> unchanged(r.mappings)
    ensures Views(rows) == old(Views(rows))
  {
  }

  twostate lemma SameAllViews(children: seq<seq<Fetched>>)
    requires forall c, r :: c in children && r in c ==> unchanged(r.mappings)
    ensures AllViews(children) == old(AllViews(children))
  {
    forall i | 0 <= i < |children| ensures Views(children[i]) == old(Views(children[i])) {
      SameViews(children[i]);
    }
  }

  // What each loop builds looks, as values, the way the feed says.

  lemma {:induction false} ViewsOfReadable(actor: Actor, rows: seq<Fetched>)
    ensures Views(ReadableRows(actor, rows)) == ReadableRows(actor, Views(rows))
  {
    if rows != [] {
      ViewsOfReadable(actor, rows[1..]);
      assert Views(rows)[1..] == Views(rows[1..]);
      assert rows == [rows[0]] + rows[1..];
    }
  }

  lemma {:induction false} ViewsOfKept(actor: Actor, rows: seq<Fetched>, headed: set<Id>)
    ensures Views(KeptRows(actor, rows, headed)) == TeacherRows(actor, Views(rows), headed)
  {
    if rows != [] {
      ViewsOfKept(actor, rows[1..], headed);
      assert Views(rows)[1..] == Views(rows[1..]);
    }
  }

  lemma {:induction false} ViewsOfAppendNew(listed: seq<Fetched>, rows: seq<Fetched>)
    ensures Views(AppendNew(listed, rows)) == AppendNew(Views(listed), Views(rows))
    decreases |rows|
  {
    if rows != [] {
      SameIds(listed, rows[0].id);
      var next := if Listed(listed, rows[0].id) then listed else listed + [rows[0]];
      ViewsOfAppendNew(next, rows[1..]);
      assert Views(rows)[1..] == Views(rows[1..]);
      assert Views(next) == if Listed(listed, rows[0].id) then Views(listed) else Views(listed) + [View(rows[0])];
    }
  }

  lemma SameIds(rows: seq<Fetched>, id: Id)
    ensures Listed(rows, id) <==> Listed(Views(rows), id)
  {
    if i :| 0 <= i < |rows| && rows[i].id == id {
      assert Views(rows)[i].id == id;
    }
    if i :| 0 <= i < |rows| && Views(rows)[i].id == id {
      assert rows[i].id == id;
    }
  }

  lemma {:induction false} ViewsOfInsert(rows: seq<Fetched>, row: Fetched)
    ensures Views(Insert(rows, row)) == Insert(Views(rows), View(row))
  {
    if rows != [] && row.date >= rows[0].date {
      ViewsOfInsert(rows[1..], row);
      assert Views(rows)[1..] == Views(rows[1..]);
    }
  }

  lemma {:induction false} ViewsOfSorted(rows: seq<Fetched>)
    ensures Views(Sorted(rows)) == Sorted(Views(rows))
    decreases |rows|
  {
    if rows != [] {
      var init := rows[..|rows| - 1];
      ViewsOfSorted(init);
      assert Views(rows)[..|rows| - 1] == Views(init);
      ViewsOfInsert(Sorted(init), rows[|rows| - 1]);
    }
  }

  /** `get_events_for_user`, on what the database answers. It returns the feed and leaves every
      list it was given as it was. */
  method GetEventsForUser(actor: Actor, all: seq<Fetched>, headed: set<Id>, own: seq<Fetched>,
                          children: seq<seq<Fetched>>)
    returns (feed: seq<Fetched>)
    ensures Views(feed) == Feed(actor, Answers(old(Views(all)), headed, old(Views(own)), old(AllViews(children))))
    ensures Views(all) == old(Views(all)) && Views(own) == old(Views(own))
      && AllViews(children) == old(AllViews(children))
  {
    if Oversees(actor) {
      ViewsOfReadable(actor, all);
      return ReadableRows(actor, all);
    }
    var rows: seq<Fetched>, added: set<Id> := [], {};
    if "teacher" in actor.roles {
      rows, added := AddTeacherRows(actor, all, headed);
      SameViews(all);
    }
    SameViews(own);
    if "student" in actor.roles {
      rows, added := AddReadableRows(actor, rows, added, own);
    }
    SameAllViews(children);
    if "parent" in actor.roles {
      rows := AddMerged(actor, rows, added, children);
    }
    SameViews(all);
    SameViews(own);
    SameAllViews(children);
    ViewsOfSorted(rows);
    feed := Sorted(rows);
  }

  method AddMerged(actor: Actor, rows0: seq<Fetched>, added0: set<Id>, children: seq<seq<Fetched>>)
      returns (rows: seq<Fetched>)
    requires Knows(added0, rows0)
    ensures Views(rows) == AppendNew(old(Views(rows0)), Merge([], ChildRows(actor, old(AllViews(children)))))
  {
    var merged := MergeChildren(actor, children);
    label Merged:
    var added;
    rows, added := AddRows(rows0, added0, merged);
    SameViews(rows0);
    SameViews@Merged(merged);
  }
}
