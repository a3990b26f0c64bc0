/** Keyset pagination of the append-only audit log: `record` and `list_entries` of
    `app/domains/audit/repository.py`, the cursor of `app/domains/audit/router.py`. */
module AuditModel {
  import opened Wrappers

  type Id = nat

  /** A row of `audit_log`, without its id. */
  datatype Entry = Entry(occurredAt: int, actor: Option<Id>, action: string, entityType: string,
                         entityId: Option<string>)

  /** The committed rows, by id. */
  type Log = map<Id, Entry>

  datatype Filter = Filter(
    action: Option<string>, entityType: Option<string>, entityId: Option<string>, actor: Option<Id>,
    occurredFrom: Option<int>, occurredTo: Option<int>)

  predicate Matches(f: Filter, e: Entry) {
    && (f.action.Some? ==> e.action == f.action.value)
    && (f.entityType.Some? ==> e.entityType == f.entityType.value)
    && (f.entityId.Some? ==> e.entityId == f.entityId)
    && (f.actor.Some? ==> e.actor == f.actor)
    && (f.occurredFrom.Some? ==> e.occurredAt >= f.occurredFrom.value)
    && (f.occurredTo.Some? ==> e.occurredAt <= f.occurredTo.value)
  }

  /** The ids the filter selects below the cursor. */
  function Matching(log: Log, f: Filter, before: Option<Id>): set<Id> {
    set id | id in log && Matches(f, log[id]) && (before.Some? ==> id < before.value)
  }

  lemma {:induction false} MaxExists(ids: set<Id>)
    requires ids != {}
    ensures exists m :: m in ids && forall x :: x in ids ==> x <= m
    decreases |ids|
  {
    var y :| y in ids;
    if ids - {y} == {} {
      assert ids == {y};
    } else {
      MaxExists(ids - {y});
      var m :| m in ids - {y} && forall x :: x in ids - {y} ==> x <= m;
      assert forall x :: x in ids ==> x == y || x in ids - {y};
      assert (if m < y then y else m) in ids;
    }
  }

  function Max(ids: set<Id>): (m: Id)
    requires ids != {}
    ensures m in ids && forall x :: x in ids ==> x <= m
  {
    MaxExists(ids);
    var m :| m in ids && forall x :: x in ids ==> x <= m;
    m
  }

  /** ORDER BY id DESC. */
  function Descending(ids: set<Id>): (s: seq<Id>)
    ensures |s| == |ids|
    decreases |ids|
  {
    if ids == {} then [] else [Max(ids)] + Descending(ids - {Max(ids)})
  }

  function Take<T>(s: seq<T>, n: nat): seq<T> { if |s| <= n then s else s[..n] }

  /** The largest page size the routes accept. */
  const LARGEST: nat := 200

  datatype Error = TooLarge | NegativeLimit | IndexOutOfRange

  datatype Page = Page(items: seq<Id>, next: Option<Id>)

  /** `query_audit_log`. A page of 0 entries is full, and its last entry does not exist. */
  function Query(log: Log, f: Filter, before: Option<Id>, limit: int): Result<Page, Error> {
    if limit > LARGEST then Failure(TooLarge)
    else if limit < 0 then Failure(NegativeLimit)
    else
      var items := Take(Descending(Matching(log, f, before)), limit);
      if |items| < limit then Success(Page(items, None))
      else if limit == 0 then Failure(IndexOutOfRange)
      else Success(Page(items, Some(items[limit - 1])))
  }

  lemma WhenQueriesSucceed(log: Log, f: Filter, before: Option<Id>, limit: int)
    ensures Query(log, f, before, limit).Success? <==> 1 <= limit <= LARGEST
  {
  }

  // ------------------------------------------------------------------
  // Descending order
  // ------------------------------------------------------------------

  ghost predicate Strictly(s: seq<Id>) { forall i, j :: 0 <= i < j < |s| ==> s[i] > s[j] }

  lemma {:induction false} DescendingMembers(ids: set<Id>, x: Id)
    ensures x in Descending(ids) <==> x in ids
    decreases |ids|
  {
    if ids != {} {
      DescendingMembers(ids - {Max(ids)}, x);
    }
  }

  lemma {:induction false} DescendingIsStrict(ids: set<Id>)
    ensures Strictly(Descending(ids))
    decreases |ids|
  {
    if ids != {} {
      var m := Max(ids);
      var rest := Descending(ids - {m});
      DescendingIsStrict(ids - {m});
      forall i | 0 <= i < |rest| ensures m > rest[i] {
        DescendingMembers(ids - {m}, rest[i]);
      }
      assert Descending(ids) == [m] + rest;
    }
  }

  lemma DescendingIsOrdered(ids: set<Id>)
    ensures Strictly(Descending(ids))
    ensures forall x :: x in Descending(ids) <==> x in ids
  {
    DescendingIsStrict(ids);
    forall x ensures x in Descending(ids) <==> x in ids {
      DescendingMembers(ids, x);
    }
  }

  function Below(ids: set<Id>, cursor: Id): set<Id> { set x | x in ids && x < cursor }

  /** What comes after the `n`-th id is the descending list of the smaller ones. */
  lemma {:induction false} AfterTheCursor(ids: set<Id>, n: nat)
    requires 0 < n <= |ids|
    ensures Descending(ids)[n..] == Descending(Below(ids, Descending(ids)[n - 1]))
    decreases n
  {
    var m := Max(ids);
    var rest := ids - {m};
    assert Descending(ids) == [m] + Descending(rest);
    if n == 1 {
      assert Below(ids, m) == rest;
    } else {
      AfterTheCursor(rest, n - 1);
      var cursor := Descending(rest)[n - 2];
      DescendingIsOrdered(rest);
      assert cursor in rest;
      assert Below(ids, cursor) == Below(rest, cursor);
      DropFirst(m, Descending(rest), n);
    }
  }

  lemma DropFirst(x: Id, s: seq<Id>, n: nat)
    requires 1 <= n <= |s| + 1
    ensures ([x] + s)[n..] == s[n - 1..]
  {
  }

  // ------------------------------------------------------------------
  // Following the cursor
  // ------------------------------------------------------------------

  /** All pages from one on, concatenated; `log(k)` is what the log holds when page `k` is read.
      Cursors are ids and decrease, so there is a last page. */
  ghost function Pages(log: nat -> Log, k: nat, f: Filter, before: Option<Id>, limit: int): seq<Id>
    requires 1 <= limit <= LARGEST
    decreases if before.Some? then 0 else 1, if before.Some? then before.value else 0
  {
    var page := Query(log(k), f, before, limit).value;
    if page.next.None? then page.items
    else
      CursorsDecrease(log(k), f, before, limit);
      page.items + Pages(log, k + 1, f, page.next, limit)
  }

  lemma CursorsDecrease(log: Log, f: Filter, before: Option<Id>, limit: int)
    requires 1 <= limit <= LARGEST
    ensures var page := Query(log, f, before, limit).value;
      && Strictly(page.items)
      && (forall x :: x in page.items ==> x in Matching(log, f, before))
      && (page.next.Some? ==>
            page.next.value in Matching(log, f, before) && page.next.value == page.items[|page.items| - 1])
  {
    var ids := Matching(log, f, before);
    DescendingIsStrict(ids);
    FirstsAreStrict(Descending(ids), limit);
    forall x | x in Take(Descending(ids), limit) ensures x in ids {
      DescendingMembers(ids, x);
    }
  }

  lemma FirstsAreStrict(s: seq<Id>, n: nat)
    requires Strictly(s)
    ensures Strictly(Take(s, n)) && forall x :: x in Take(s, n) ==> x in s
    ensures n > 0 && |Take(s, n)| == n ==> Take(s, n)[n - 1] in Take(s, n)
  {
    assert forall i :: 0 <= i < |Take(s, n)| ==> Take(s, n)[i] == s[i];
  }

  /** A page and the ids below its cursor are what the filter selects. */
  lemma PageThenRest(log: Log, f: Filter, before: Option<Id>, limit: int)
    requires 1 <= limit <= LARGEST
    ensures var page := Query(log, f, before, limit).value;
      Descending(Matching(log, f, before)) ==
        page.items + (if page.next.None? then [] else Descending(Matching(log, f, page.next)))
  {
    var ids := Matching(log, f, before);
    var page := Query(log, f, before, limit).value;
    if page.next.Some? {
      CursorsDecrease(log, f, before, limit);
      AfterTheCursor(ids, limit);
      assert Matching(log, f, page.next) == Below(ids, Descending(ids)[limit - 1]);
      assert Descending(ids) == Descending(ids)[..limit] + Descending(ids)[limit..];
    }
  }

  /** Once the log stands still, following the cursors returns exactly the filtered log below
      the cursor, newest first. */
  lemma {:induction false} PagesAreTheLog(log: nat -> Log, k: nat, f: Filter, before: Option<Id>, limit: int,
                                          still: Log)
    requires 1 <= limit <= LARGEST && StandsStill(log, k, f, before, still)
    ensures Pages(log, k, f, before, limit) == Descending(Matching(still, f, before))
    decreases if before.Some? then 0 else 1, if before.Some? then before.value else 0
  {
    var page := Query(log(k), f, before, limit).value;
    assert Matching(log(k), f, before) == Matching(still, f, before);
    assert page == Query(still, f, before, limit).value;
    PageThenRest(still, f, before, limit);
    CursorsDecrease(log(k), f, before, limit);
    if page.next.Some? {
      StillBelow(log, k, f, before, page.next, still);
      PagesAreTheLog(log, k + 1, f, page.next, limit, still);
    }
  }

  ghost predicate StandsStill(log: nat -> Log, k: nat, f: Filter, before: Option<Id>, still: Log) {
    forall j :: j >= k ==> Matching(log(j), f, before) == Matching(still, f, before)
  }

  lemma StillBelow(log: nat -> Log, k: nat, f: Filter, before: Option<Id>, next: Option<Id>, still: Log)
    requires StandsStill(log, k, f, before, still) && next.Some? && (before.Some? ==> next.value <= before.value)
    ensures StandsStill(log, k + 1, f, next, still)
  {
    forall j | j >= k + 1 ensures Matching(log(j), f, next) == Matching(still, f, next) {
      BelowTheCursor(log(j), still, f, before, next);
    }
  }

  lemma BelowTheCursor(a: Log, b: Log, f: Filter, before: Option<Id>, next: Option<Id>)
    requires Matching(a, f, before) == Matching(b, f, before)
    requires next.Some? && (before.Some? ==> next.value <= before.value)
    ensures Matching(a, f, next) == Matching(b, f, next)
  {
    forall x ensures x in Matching(a, f, next) <==> x in Matching(b, f, next) {
      assert x in Matching(a, f, next) ==> x in Matching(a, f, before);
      assert x in Matching(b, f, next) ==> x in Matching(b, f, before);
    }
  }

  /** The fast paged form is the simple filtered list. */
  lemma PagingIsFiltering(log: Log, f: Filter, limit: int)
    requires 1 <= limit <= LARGEST
    ensures Pages(k => log, 0, f, None, limit) == Descending(Matching(log, f, None))
    ensures Strictly(Descending(Matching(log, f, None)))
    ensures forall id :: id in Descending(Matching(log, f, None)) <==> id in log && Matches(f, log[id])
  {
    PagesAreTheLog(k => log, 0, f, None, limit, log);
    DescendingIsOrdered(Matching(log, f, None));
  }

  // ------------------------------------------------------------------
  // A log that grows between pages
  // ------------------------------------------------------------------

  /** Rows are only ever added. */
  ghost predicate AppendOnly(log: nat -> Log) {
    forall j: nat, k: nat, id :: j <= k && id in log(j) ==> id in log(k) && log(k)[id] == log(j)[id]
  }

  /** However the log grows meanwhile, no entry is returned twice, and everything returned was
      there at some page. */
  lemma {:induction false} NothingRepeated(log: nat -> Log, k: nat, f: Filter, before: Option<Id>, limit: int)
    requires 1 <= limit <= LARGEST
    ensures Strictly(Pages(log, k, f, before, limit))
    ensures forall id :: id in Pages(log, k, f, before, limit) ==> EventuallyMatches(log, k, f, before, id)
    decreases if before.Some? then 0 else 1, if before.Some? then before.value else 0
  {
    var page := Query(log(k), f, before, limit).value;
    CursorsDecrease(log(k), f, before, limit);
    forall id | id in page.items ensures EventuallyMatches(log, k, f, before, id) {
      assert id in Matching(log(k), f, before);
    }
    if page.next.Some? {
      NothingRepeated(log, k + 1, f, page.next, limit);
      var rest := Pages(log, k + 1, f, page.next, limit);
      forall id | id in rest ensures id < page.next.value && EventuallyMatches(log, k, f, before, id) {
        LaterIsEventual(log, k, f, before, page.next, id);
      }
      LowerTail(page.items, rest, page.next.value);
    }
  }

  ghost predicate EventuallyMatches(log: nat -> Log, k: nat, f: Filter, before: Option<Id>, id: Id) {
    exists j :: j >= k && id in Matching(log(j), f, before)
  }

  lemma LaterIsEventual(log: nat -> Log, k: nat, f: Filter, before: Option<Id>, next: Option<Id>, id: Id)
    requires EventuallyMatches(log, k + 1, f, next, id) && next.Some? && (before.Some? ==> next.value <= before.value)
    ensures id < next.value && EventuallyMatches(log, k, f, before, id)
  {
    var j :| j >= k + 1 && id in Matching(log(j), f, next);
    assert id in Matching(log(j), f, before);
  }

  lemma LowerTail(a: seq<Id>, b: seq<Id>, cursor: Id)
    requires Strictly(a) && Strictly(b) && a != [] && a[|a| - 1] == cursor && forall x :: x in b ==> x < cursor
    ensures Strictly(a + b)
  {
    forall i | 0 <= i < |b| ensures b[i] < cursor {
      assert b[i] in b;
    }
  }

  lemma OnThePageOrBelow(log: Log, f: Filter, before: Option<Id>, limit: int, id: Id)
    requires 1 <= limit <= LARGEST && id in Matching(log, f, before)
    ensures var page := Query(log, f, before, limit).value;
      id in page.items || (page.next.Some? && id in Matching(log, f, page.next))
  {
    var page := Query(log, f, before, limit).value;
    PageThenRest(log, f, before, limit);
    DescendingIsOrdered(Matching(log, f, before));
    assert id in Descending(Matching(log, f, before));
    if id !in page.items {
      DescendingIsOrdered(Matching(log, f, page.next));
    }
  }

  /** And nothing that was there at the first page is missed. */
  lemma {:induction false} NothingMissed(log: nat -> Log, k: nat, f: Filter, before: Option<Id>, limit: int, id: Id)
    requires 1 <= limit <= LARGEST && AppendOnly(log) && id in Matching(log(k), f, before)
    ensures id in Pages(log, k, f, before, limit)
    decreases if before.Some? then 0 else 1, if before.Some? then before.value else 0
  {
    var page := Query(log(k), f, before, limit).value;
    OnThePageOrBelow(log(k), f, before, limit, id);
    if id !in page.items {
      CursorsDecrease(log(k), f, before, limit);
      StaysMatched(log, k, f, page.next, id);
      NothingMissed(log, k + 1, f, page.next, limit, id);
    }
  }

  lemma StaysMatched(log: nat -> Log, k: nat, f: Filter, before: Option<Id>, id: Id)
    requires AppendOnly(log) && id in Matching(log(k), f, before)
    ensures id in Matching(log(k + 1), f, before)
  {
    assert id in log(k);
  }

  /** Where an id is looked for: the page whose ids end at or below it, or the last page; its
      number and the cursor it is read with. */
  ghost function Covering(log: nat -> Log, k: nat, f: Filter, before: Option<Id>, limit: int, id: Id): (nat, Option<Id>)
    requires 1 <= limit <= LARGEST
    decreases if before.Some? then 0 else 1, if before.Some? then before.value else 0
  {
    var page := Query(log(k), f, before, limit).value;
    if page.next.None? || page.next.value <= id then (k, before)
    else
      CursorsDecrease(log(k), f, before, limit);
      Covering(log, k + 1, f, page.next, limit, id)
  }

  /** However the log grows or changes between the pages, what they return is exactly what was
      there, below the cursor, when the page covering it was read. So of the entries that turn up
      meanwhile those are returned whose id is below the cursor of a page still to be read: rows
      of transactions that took their id early and committed late. */
  lemma {:induction false} WhatPagesReturn(log: nat -> Log, k: nat, f: Filter, before: Option<Id>, limit: int, id: Id)
    requires 1 <= limit <= LARGEST
    ensures var (page, cursor) := Covering(log, k, f, before, limit, id);
      id in Pages(log, k, f, before, limit) <==> id in Matching(log(page), f, cursor)
    decreases if before.Some? then 0 else 1, if before.Some? then before.value else 0
  {
    var page := Query(log(k), f, before, limit).value;
    CursorsDecrease(log(k), f, before, limit);
    OnThePageIffAbove(log(k), f, before, limit, id);
    if page.next.Some? {
      if page.next.value <= id {
        PagesAreBelow(log, k + 1, f, page.next, limit, id);
      } else {
        WhatPagesReturn(log, k + 1, f, page.next, limit, id);
      }
    }
  }

  /** A page holds what matches down to the next cursor. */
  lemma OnThePageIffAbove(log: Log, f: Filter, before: Option<Id>, limit: int, id: Id)
    requires 1 <= limit <= LARGEST
    ensures var page := Query(log, f, before, limit).value;
      id in page.items <==> id in Matching(log, f, before) && (page.next.Some? ==> page.next.value <= id)
  {
    var page := Query(log, f, before, limit).value;
    CursorsDecrease(log, f, before, limit);
    if id in Matching(log, f, before) {
      OnThePageOrBelow(log, f, before, limit, id);
    }
    assert page.next.Some? ==> forall i :: 0 <= i < |page.items| ==> page.items[i] >= page.next.value;
  }

  lemma PagesAreBelow(log: nat -> Log, k: nat, f: Filter, before: Option<Id>, limit: int, id: Id)
    requires 1 <= limit <= LARGEST && before.Some? && before.value <= id
    ensures id !in Pages(log, k, f, before, limit)
  {
    NothingRepeated(log, k, f, before, limit);
    EventualIsBelow(log, k, f, before, id);
  }

  lemma EventualIsBelow(log: nat -> Log, k: nat, f: Filter, before: Option<Id>, id: Id)
    ensures EventuallyMatches(log, k, f, before, id) && before.Some? ==> id < before.value
  {
  }

  /** If the log changes once, after the first page, the rest of what is returned is what it then
      holds below the cursor. */
  lemma LateEntries(first: Log, later: Log, f: Filter, limit: int)
    requires 1 <= limit <= LARGEST && Query(first, f, None, limit).value.next.Some?
    ensures var page := Query(first, f, None, limit).value;
      Pages(k => if k == 0 then first else later, 0, f, None, limit) ==
        page.items + Descending(Matching(later, f, page.next))
  {
    var page := Query(first, f, None, limit).value;
    CursorsDecrease(first, f, None, limit);
    PagesAreTheLog(k => if k == 0 then first else later, 1, f, page.next, limit, later);
  }

  /** Entries with larger ids, appended between pages, change nothing after the first page. */
  lemma LargerIdsChangeNothing(log: nat -> Log, f: Filter, limit: int)
    requires 1 <= limit <= LARGEST && AppendOnly(log)
    requires forall k, id, id' :: id in log(0) && id' in log(k) && id' !in log(0) ==> id < id'
    ensures Pages(log, 0, f, None, limit) == Descending(Matching(log(0), f, None))
  {
    var page := Query(log(0), f, None, limit).value;
    PageThenRest(log(0), f, None, limit);
    if page.next.Some? {
      CursorsDecrease(log(0), f, None, limit);
      forall j | j >= 1 ensures Matching(log(j), f, page.next) == Matching(log(0), f, page.next) {
        forall x ensures x in Matching(log(j), f, page.next) <==> x in Matching(log(0), f, page.next) {
          if x in Matching(log(j), f, page.next) {
            assert page.next.value in log(0);
          }
        }
      }
      PagesAreTheLog(log, 1, f, page.next, limit, log(0));
    }
  }

  /** The CSV export is one page: it is the whole filtered log exactly when that fits. */
  lemma WhenTheExportIsComplete(log: Log, f: Filter, limit: nat)
    ensures Take(Descending(Matching(log, f, None)), limit) == Descending(Matching(log, f, None)) <==>
            |Matching(log, f, None)| <= limit
  {
  }
}

/** The repository over the stored log. */
module AuditService {
  import opened Wrappers
  import opened AuditModel

  /** One conjunct of the WHERE clause with its parameter. */
  datatype Condition =
    | ActionIs(action: string) | EntityTypeIs(entityType: string) | EntityIdIs(entityId: string) | ActorIs(actor: Id)
    | Since(from: int) | Until(to: int) | IdBelow(cursor: Id)

  predicate Holds(c: Condition, id: Id, e: Entry) {
    match c
    case ActionIs(action) => e.action == action
    case EntityTypeIs(entityType) => e.entityType == entityType
    case EntityIdIs(entityId) => e.entityId == Some(entityId)
    case ActorIs(actor) => e.actor == Some(actor)
    case Since(from) => e.occurredAt >= from
    case Until(to) => e.occurredAt <= to
    case IdBelow(cursor) => id < cursor
  }

  predicate AllHold(conditions: seq<Condition>, id: Id, e: Entry) {
    forall c :: c in conditions ==> Holds(c, id, e)
  }

  /** The conjunct is one the request asks for. */
  predicate Asked(f: Filter, before: Option<Id>, c: Condition) {
    match c
    case ActionIs(action) => f.action == Some(action)
    case EntityTypeIs(entityType) => f.entityType == Some(entityType)
    case EntityIdIs(entityId) => f.entityId == Some(entityId)
    case ActorIs(actor) => f.actor == Some(actor)
    case Since(from) => f.occurredFrom == Some(from)
    case Until(to) => f.occurredTo == Some(to)
    case IdBelow(cursor) => before == Some(cursor)
  }

  /** The conjunction of what is asked for is the filter and the cursor. */
  lemma WhereMeansTheFilter(f: Filter, before: Option<Id>, conditions: seq<Condition>, id: Id, e: Entry)
    requires forall c :: c in conditions <==> Asked(f, before, c)
    ensures AllHold(conditions, id, e) <==> Matches(f, e) && (before.Some? ==> id < before.value)
  {
    if AllHold(conditions, id, e) {
      assert f.action.Some? ==> ActionIs(f.action.value) in conditions;
      assert f.entityType.Some? ==> EntityTypeIs(f.entityType.value) in conditions;
      assert f.entityId.Some? ==> EntityIdIs(f.entityId.value) in conditions;
      assert f.actor.Some? ==> ActorIs(f.actor.value) in conditions;
      assert f.occurredFrom.Some? ==> Since(f.occurredFrom.value) in conditions;
      assert f.occurredTo.Some? ==> Until(f.occurredTo.value) in conditions;
      assert before.Some? ==> IdBelow(before.value) in conditions;
    }
  }

  class AuditLog {
    var rows: map<Id, Entry>
    var nextId: Id

    ghost predicate Valid()
      reads this
    {
      forall id :: id in rows ==> id < nextId
    }

    constructor ()
      ensures Valid() && rows == map[]
    {
      rows, nextId := map[], 1;
    }

    /** Rows are added under an id larger than all before; nothing updates or deletes them. */
    method Record(entry: Entry) returns (id: Id)
      requires Valid()
      modifies this
      ensures Valid() && id !in old(rows) && rows == old(rows)[id := entry]
      ensures forall other :: other in old(rows) ==> other < id
    {
      id := nextId;
      rows, nextId := rows[id := entry], nextId + 1;
    }

    /** The WHERE clause, grown condition by condition. */
    method Where(f: Filter, before: Option<Id>) returns (conditions: seq<Condition>)
      ensures forall c :: c in conditions <==> Asked(f, before, c)
    {
      conditions := [];
      if f.action.Some? {
        conditions := conditions + [ActionIs(f.action.value)];
      }
      if f.entityType.Some? {
        conditions := conditions + [EntityTypeIs(f.entityType.value)];
      }
      if f.entityId.Some? {
        conditions := conditions + [EntityIdIs(f.entityId.value)];
      }
      if f.actor.Some? {
        conditions := conditions + [ActorIs(f.actor.value)];
      }
      if f.occurredFrom.Some? {
        conditions := conditions + [Since(f.occurredFrom.value)];
      }
      if f.occurredTo.Some? {
        conditions := conditions + [Until(f.occurredTo.value)];
      }
      if before.Some? {
        conditions := conditions + [IdBelow(before.value)];
      }
    }

    /** The SELECT. */
    method Fetch(f: Filter, before: Option<Id>, limit: nat) returns (fetched: seq<Id>)
      ensures fetched == Take(Descending(Matching(rows, f, before)), limit)
      ensures forall i :: 0 <= i < |fetched| ==> fetched[i] in rows
    {
      var conditions := Where(f, before);
      var selected := set id | id in rows && AllHold(conditions, id, rows[id]);
      forall id | id in rows ensures id in selected <==> id in Matching(rows, f, before) {
        WhereMeansTheFilter(f, before, conditions, id, rows[id]);
      }
      assert selected == Matching(rows, f, before);
      fetched := Take(Descending(selected), limit);
      forall i | 0 <= i < |fetched| ensures fetched[i] in rows {
        DescendingMembers(selected, fetched[i]);
      }
    }

    /** `list_entries`; the result list is filled row by row. */
    method ListEntries(f: Filter, before: Option<Id>, limit: nat) returns (results: seq<(Id, Entry)>)
      ensures |results| == |Take(Descending(Matching(rows, f, before)), limit)|
      ensures forall i :: 0 <= i < |results| ==>
        && results[i].0 == Take(Descending(Matching(rows, f, before)), limit)[i]
        && results[i].0 in rows && results[i].1 == rows[results[i].0]
    {
      var fetched := Fetch(f, before, limit);
      results := [];
      for i := 0 to |fetched|
        invariant |results| == i
        invariant forall k :: 0 <= k < i ==> results[k] == (fetched[k], rows[fetched[k]])
      {
        results := results + [(fetched[i], rows[fetched[i]])];
      }
    }

    /** `query_audit_log`: the page, and the cursor of the next if this one is full. */
    method QueryPage(f: Filter, before: Option<Id>, limit: int)
        returns (r: Result<(seq<(Id, Entry)>, Option<Id>), Error>)
      ensures match r
        case Failure(error) => Query(rows, f, before, limit) == Failure(error)
        case Success((entries, next)) =>
          && Query(rows, f, before, limit) ==
            Success(Page(seq(|entries|, i requires 0 <= i < |entries| => entries[i].0), next))
          && forall i :: 0 <= i < |entries| ==> entries[i].0 in rows && entries[i].1 == rows[entries[i].0]
    {
      if limit > LARGEST {
        return Failure(TooLarge);
      }
      if limit < 0 {
        return Failure(NegativeLimit);
      }
      var entries := ListEntries(f, before, limit);
      ghost var ids := seq(|entries|, i requires 0 <= i < |entries| => entries[i].0);
      assert ids == Take(Descending(Matching(rows, f, before)), limit);
      if |entries| != limit {
        return Success((entries, None));
      }
      if limit == 0 {
        return Failure(IndexOutOfRange);
      }
      r := Success((entries, Some(entries[|entries| - 1].0)));
    }
  }
}
