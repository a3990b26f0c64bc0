/** The 30-second membership cache of `app/core/dependencies.py`, with its load interleaved.

    A miss takes its timestamp first and then reads three tables at three awaits; other
    requests and writers may run between any two of them. */
module CacheSteps {
  import opened Wrappers

  type Email = string
  type Tenant = string
  type Time = nat
  type TaskId = nat

  const TTL: Time := 30

  /** The control-plane tables a load reads. */
  datatype World = World(members: map<Email, map<Tenant, string>>,   // user_tenant_map
                         parents: map<Email, nat>,
                         links: set<(nat, Tenant)>)                  // parent_tenant_links

  function MembersOf(w: World, email: Email): map<Tenant, string> {
    if email in w.members then w.members[email] else map[]
  }

  function ParentOf(w: World, email: Email): Option<nat> {
    if email in w.parents then Some(w.parents[email]) else None
  }

  function LinksOf(w: World, parent: Option<nat>): set<Tenant> {
    if parent.None? then {} else set l | l in w.links && l.0 == parent.value :: l.1
  }

  /** A link adds a "parent" membership unless the table already names a role. */
  function Combined(members: map<Tenant, string>, links: set<Tenant>): map<Tenant, string> {
    members + map t | t in links && t !in members :: "parent"
  }

  /** The true membership map of an address. */
  function Truth(w: World, email: Email): map<Tenant, string> {
    Combined(MembersOf(w, email), LinksOf(w, ParentOf(w, email)))
  }

  /** A school is on the list if a membership row or a link of the parent's account says so; a
      stored role wins, a link alone makes a parent. */
  lemma TruthIsExact(w: World, email: Email, t: Tenant)
    ensures var stored := email in w.members && t in w.members[email];
      && (t in Truth(w, email) <==> stored || (email in w.parents && (w.parents[email], t) in w.links))
      && (t in Truth(w, email) ==> Truth(w, email)[t] == if stored then w.members[email][t] else "parent")
  {
    if email in w.parents {
      var linked := LinksOf(w, ParentOf(w, email));
      assert t in linked <==> (w.parents[email], t) in w.links by {
        if (w.parents[email], t) in w.links {
          assert (w.parents[email], t).0 == w.parents[email];
        }
      }
    }
  }

  /** History: which world each of the three reads saw, and when. */
  datatype Source = Source(i1: nat, t1: Time, i2: nat, t2: Time, i3: nat, t3: Time)

  datatype Entry = Entry(stamp: Time, memberships: map<Tenant, string>, source: Source)

  datatype Pc =
    | Missed                                                                     // before the first read
    | GotMembers(members: map<Tenant, string>, i1: nat, t1: Time)
    | GotParent(members: map<Tenant, string>, parent: Option<nat>, i1: nat, t1: Time, i2: nat, t2: Time)
    | Served(memberships: map<Tenant, string>, at: Time, source: Source, hit: bool)
    | LoadFailed                                                                 // logged; an empty list is used

  datatype Task = Task(email: Email, started: Time, pc: Pc)

  datatype State = State(
    now: Time,
    worlds: seq<World>,          // history; the last one is current
    since: seq<Time>,            // when each world came into force
    cache: map<Email, Entry>,
    tasks: map<TaskId, Task>)

  datatype Action =
    | Begin(k: TaskId, email: Email)   // read the clock, look in the cache
    | ReadMembers(k: TaskId)
    | ReadParent(k: TaskId)
    | ReadLinks(k: TaskId)             // last read, store in the cache, return
    | Abort(k: TaskId)
    | Write(w: World)                  // any committed write
    | Invalidate(email: Email)
    | InvalidateAll
    | Tick(seconds: nat)

  predicate WellFormed(s: State) { |s.worlds| > 0 && |s.since| == |s.worlds| }

  function Current(s: State): World
    requires WellFormed(s)
  {
    s.worlds[|s.worlds| - 1]
  }

  predicate Fresh(s: State, email: Email) { email in s.cache && s.now < s.cache[email].stamp + TTL }

  predicate Enabled(s: State, a: Action) {
    WellFormed(s) &&
    match a
    case Begin(k, _) => k !in s.tasks
    case ReadMembers(k) => k in s.tasks && s.tasks[k].pc.Missed?
    case ReadParent(k) => k in s.tasks && s.tasks[k].pc.GotMembers?
    case ReadLinks(k) => k in s.tasks && s.tasks[k].pc.GotParent?
    case Abort(k) => k in s.tasks && !s.tasks[k].pc.Served?
    case _ => true
  }

  function Move(s: State, k: TaskId, pc: Pc): State
    requires k in s.tasks
  {
    s.(tasks := s.tasks[k := s.tasks[k].(pc := pc)])
  }

  function Next(s: State, a: Action): (t: State)
    requires Enabled(s, a)
    ensures WellFormed(t)
  {
    var i := |s.worlds| - 1;
    match a
    case Begin(k, email) =>
      var pc := if Fresh(s, email)
                then Served(s.cache[email].memberships, s.now, s.cache[email].source, true) else Missed;
      s.(tasks := s.tasks[k := Task(email, s.now, pc)])
    case ReadMembers(k) => Move(s, k, GotMembers(MembersOf(Current(s), s.tasks[k].email), i, s.now))
    case ReadParent(k) =>
      var pc := s.tasks[k].pc;
      Move(s, k, GotParent(pc.members, ParentOf(Current(s), s.tasks[k].email), pc.i1, pc.t1, i, s.now))
    case ReadLinks(k) =>
      var task := s.tasks[k];
      var list := Combined(task.pc.members, LinksOf(Current(s), task.pc.parent));
      var source := Source(task.pc.i1, task.pc.t1, task.pc.i2, task.pc.t2, i, s.now);
      Move(s.(cache := s.cache[task.email := Entry(task.started, list, source)]), k, Served(list, s.now, source, false))
    case Abort(k) => Move(s, k, LoadFailed)
    case Write(w) => s.(worlds := s.worlds + [w], since := s.since + [s.now])
    case Invalidate(email) => s.(cache := s.cache - {email})
    case InvalidateAll => s.(cache := map[])
    case Tick(seconds) => s.(now := s.now + seconds)
  }

  predicate Run(s: State, acts: seq<Action>)
    decreases |acts|
  {
    WellFormed(s) && (|acts| == 0 || (Enabled(s, acts[0]) && Run(Next(s, acts[0]), acts[1..])))
  }

  function After(s: State, acts: seq<Action>): (t: State)
    requires Run(s, acts)
    ensures WellFormed(t)
    decreases |acts|
  {
    if |acts| == 0 then s else After(Next(s, acts[0]), acts[1..])
  }

  predicate Initial(s: State) { |s.worlds| == 1 && s.since == [s.now] && s.cache == map[] && s.tasks == map[] }

  /** Reading a run from its first action on. */
  lemma Cons(s: State, a: Action, rest: seq<Action>)
    requires Enabled(s, a) && Run(Next(s, a), rest)
    ensures Run(s, [a] + rest) && After(s, [a] + rest) == After(Next(s, a), rest)
  {
    assert ([a] + rest)[1..] == rest;
  }

  // ------------------------------------------------------------------
  // Where a list comes from
  // ------------------------------------------------------------------

  /** World `i` was in force at time `t`. */
  predicate InForce(s: State, i: nat, t: Time) {
    && |s.since| == |s.worlds| && i < |s.worlds|
    && s.since[i] <= t <= s.now
    && (i + 1 < |s.worlds| ==> t <= s.since[i + 1])
  }

  predicate Earlier(i: nat, t: Time, j: nat, u: Time) { i <= j && t <= u }

  /** The list is what three reads, at these worlds and times and in this order, make. */
  ghost predicate Justified(s: State, email: Email, list: map<Tenant, string>, from: Source) {
    && InForce(s, from.i1, from.t1) && InForce(s, from.i2, from.t2) && InForce(s, from.i3, from.t3)
    && Earlier(from.i1, from.t1, from.i2, from.t2) && Earlier(from.i2, from.t2, from.i3, from.t3)
    && list == Combined(MembersOf(s.worlds[from.i1], email),
                        LinksOf(s.worlds[from.i3], ParentOf(s.worlds[from.i2], email)))
  }

  ghost predicate TaskOk(s: State, task: Task) {
    && task.started <= s.now
    && match task.pc
       case Missed => true
       case GotMembers(members, i1, t1) =>
         InForce(s, i1, t1) && task.started <= t1 && members == MembersOf(s.worlds[i1], task.email)
       case GotParent(members, parent, i1, t1, i2, t2) =>
         && InForce(s, i1, t1) && InForce(s, i2, t2) && task.started <= t1 && Earlier(i1, t1, i2, t2)
         && members == MembersOf(s.worlds[i1], task.email) && parent == ParentOf(s.worlds[i2], task.email)
       case Served(list, at, source, hit) =>
         && Justified(s, task.email, list, source)
         && source.t3 <= at <= s.now
         && (if hit then at < source.t1 + TTL else task.started <= source.t1)
       case LoadFailed => true
  }

  ghost predicate EntryOk(s: State, email: Email, e: Entry) {
    Justified(s, email, e.memberships, e.source) && e.stamp <= e.source.t1
  }

  ghost predicate Inv(s: State) {
    && WellFormed(s)
    && (forall i :: 0 <= i < |s.since| ==> s.since[i] <= s.now)
    && (forall k :: k in s.tasks ==> TaskOk(s, s.tasks[k]))
    && (forall e :: e in s.cache ==> EntryOk(s, e, s.cache[e]))
  }

  /** Time passing and worlds being added never unjustify a list. */
  lemma JustifiedStays(s: State, t: State, email: Email, list: map<Tenant, string>, from: Source)
    requires Justified(s, email, list, from) && Later(s, t)
    ensures Justified(t, email, list, from)
  {
  }

  predicate Later(s: State, t: State) {
    && |s.since| == |s.worlds| && |t.since| == |t.worlds|
    && s.now <= t.now && s.worlds <= t.worlds && s.since <= t.since
    && forall i :: |s.since| <= i < |t.since| ==> s.now <= t.since[i]
  }

  lemma TaskStays(s: State, t: State, task: Task)
    requires TaskOk(s, task) && Later(s, t)
    ensures TaskOk(t, task)
  {
    if task.pc.Served? {
      JustifiedStays(s, t, task.email, task.pc.memberships, task.pc.source);
    }
  }

  lemma EntryStays(s: State, t: State, email: Email, e: Entry)
    requires EntryOk(s, email, e) && Later(s, t)
    ensures EntryOk(t, email, e)
  {
    JustifiedStays(s, t, email, e.memberships, e.source);
  }

  lemma BeginOk(s: State, k: TaskId, email: Email)
    requires Inv(s) && Enabled(s, Begin(k, email))
    ensures var t := Next(s, Begin(k, email)); k in t.tasks && TaskOk(t, t.tasks[k])
  {
    var t := Next(s, Begin(k, email));
    if Fresh(s, email) {
      var entry := s.cache[email];
      assert EntryOk(s, email, entry);
      JustifiedStays(s, t, email, entry.memberships, entry.source);
      assert t.tasks[k] == Task(email, s.now, Served(entry.memberships, s.now, entry.source, true));
    } else {
      assert t.tasks[k] == Task(email, s.now, Missed);
    }
  }

  lemma ReadOk(s: State, a: Action, k: TaskId)
    requires Inv(s) && Enabled(s, a) && (a.ReadMembers? || a.ReadParent? || a.Abort?) && a.k == k
    ensures var t := Next(s, a); k in t.tasks && TaskOk(t, t.tasks[k])
  {
    assert TaskOk(s, s.tasks[k]);
  }

  lemma LastReadOk(s: State, k: TaskId)
    requires Inv(s) && Enabled(s, ReadLinks(k))
    ensures var t := Next(s, ReadLinks(k)); k in t.tasks && TaskOk(t, t.tasks[k])
  {
    assert TaskOk(s, s.tasks[k]);
  }

  /** What each action adds is justified on the spot. */
  lemma NewTaskOk(s: State, a: Action, k: TaskId)
    requires Inv(s) && Enabled(s, a) && (a.Begin? || a.ReadMembers? || a.ReadParent? || a.ReadLinks? || a.Abort?)
      && a.k == k
    ensures k in Next(s, a).tasks && TaskOk(Next(s, a), Next(s, a).tasks[k])
  {
    if a.Begin? {
      BeginOk(s, k, a.email);
    } else if a.ReadLinks? {
      LastReadOk(s, k);
    } else {
      ReadOk(s, a, k);
    }
  }

  lemma NewEntryOk(s: State, k: TaskId)
    requires Inv(s) && Enabled(s, ReadLinks(k))
    ensures var t := Next(s, ReadLinks(k)); EntryOk(t, s.tasks[k].email, t.cache[s.tasks[k].email])
  {
    assert TaskOk(s, s.tasks[k]);
  }

  lemma StepIsLater(s: State, a: Action)
    requires Inv(s) && Enabled(s, a)
    ensures Later(s, Next(s, a))
  {
  }

  lemma StepKeepsInv(s: State, a: Action)
    requires Inv(s) && Enabled(s, a)
    ensures Inv(Next(s, a))
  {
    var t := Next(s, a);
    StepIsLater(s, a);
    forall j | j in t.tasks
      ensures TaskOk(t, t.tasks[j])
    {
      if j in s.tasks && t.tasks[j] == s.tasks[j] {
        TaskStays(s, t, s.tasks[j]);
      } else {
        NewTaskOk(s, a, j);
      }
    }
    forall e | e in t.cache
      ensures EntryOk(t, e, t.cache[e])
    {
      if e in s.cache && t.cache[e] == s.cache[e] {
        EntryStays(s, t, e, s.cache[e]);
      } else {
        NewEntryOk(s, a.k);
      }
    }
  }

  lemma {:induction false} RunKeepsInv(s: State, acts: seq<Action>)
    requires Inv(s) && Run(s, acts)
    ensures Inv(After(s, acts))
    decreases |acts|
  {
    if |acts| > 0 {
      StepKeepsInv(s, acts[0]);
      RunKeepsInv(Next(s, acts[0]), acts[1..]);
    }
  }

  // ------------------------------------------------------------------
  // What every run guarantees
  // ------------------------------------------------------------------

  /** Over every interleaving of requests, writers and invalidations: each list returned is made
      of a membership part and a link part that were each true when read, in that order; a list
      from the cache was read less than 30 seconds before it was returned, a loaded one during
      the request itself. */
  lemma EveryListIsRecent(s: State, acts: seq<Action>, k: TaskId)
    requires Initial(s) && Run(s, acts) && k in After(s, acts).tasks && After(s, acts).tasks[k].pc.Served?
    ensures var e := After(s, acts);
      var task := e.tasks[k];
      var from := task.pc.source;
      && Justified(e, task.email, task.pc.memberships, from)
      && from.t3 <= task.pc.at
      && (if task.pc.hit then task.pc.at < from.t1 + TTL else task.started <= from.t1)
  {
    RunKeepsInv(s, acts);
    assert TaskOk(After(s, acts), After(s, acts).tasks[k]);
  }

  /** A stored list is served, unread and unchanged, exactly until its load began thirty seconds
      ago; an invalidation of the address, and only of that, ends this at once. */
  lemma StoredListIsServed(s: State, k: TaskId, j: TaskId, seconds: nat, other: Email)
    requires Enabled(s, ReadLinks(k)) && j !in s.tasks
    ensures var email := s.tasks[k].email;
      var loaded := Next(s, ReadLinks(k));
      var later := Next(loaded, Tick(seconds));
      var answered := Next(later, Begin(j, email)).tasks[j].pc;
      && loaded.tasks[k].pc.Served?
      && (answered.Served? <==> s.now + seconds < s.tasks[k].started + 30)
      && (answered.Served? ==> answered.hit && answered.memberships == loaded.tasks[k].pc.memberships)
      && (Next(Next(later, Invalidate(other)), Begin(j, email)).tasks[j].pc ==
            if other == email then Missed else answered)
      && Next(Next(later, InvalidateAll), Begin(j, email)).tasks[j].pc == Missed
  {
    var later := Next(Next(s, ReadLinks(k)), Tick(seconds));
    assert other != s.tasks[k].email ==>
      Next(later, Invalidate(other)).cache[s.tasks[k].email] == later.cache[s.tasks[k].email];
  }

  /** A load that fails stores nothing and leaves other requests alone. */
  lemma FailedLoadStoresNothing(s: State, k: TaskId)
    requires Enabled(s, Abort(k))
    ensures var t := Next(s, Abort(k));
      && t == s.(tasks := t.tasks) && t.tasks.Keys == s.tasks.Keys && t.tasks - {k} == s.tasks - {k}
      && t.tasks[k].pc == LoadFailed && t.tasks[k].email == s.tasks[k].email
  {
  }

  // ------------------------------------------------------------------
  // When a disturbed load is still true
  // ------------------------------------------------------------------

  /** The three tables of a load. */
  datatype Stored = InMembers | InParents | InLinks

  predicate OnlyTouches(w: World, w': World, k: Stored) {
    && (k.InMembers? || w'.members == w.members)
    && (k.InParents? || w'.parents == w.parents)
    && (k.InLinks? || w'.links == w.links)
  }

  /** A statement writes one table, here one of `kinds`. */
  predicate OneStatement(w: World, w': World, kinds: set<Stored>) {
    w' == w || exists k :: k in kinds && OnlyTouches(w, w', k)
  }

  ghost predicate Statements(ws: seq<World>, kinds: set<Stored>, lo: nat, hi: nat) {
    hi < |ws| && forall j :: lo <= j < hi ==> OneStatement(ws[j], ws[j + 1], kinds)
  }

  /** The list of a load whose reads see these three worlds. */
  function ListFrom(ws: seq<World>, e: Email, i1: nat, i2: nat, i3: nat): map<Tenant, string>
    requires i1 < |ws| && i2 < |ws| && i3 < |ws|
  {
    Combined(MembersOf(ws[i1], e), LinksOf(ws[i3], ParentOf(ws[i2], e)))
  }

  /** It was the true membership map at some moment of the load. */
  ghost predicate OnceTrue(ws: seq<World>, e: Email, i1: nat, i2: nat, i3: nat)
    requires i1 <= i2 <= i3 < |ws|
  {
    exists j :: i1 <= j <= i3 && ListFrom(ws, e, i1, i2, i3) == Truth(ws[j], e)
  }

  /** It was never true at all. */
  ghost predicate NeverTrue(ws: seq<World>, e: Email, i1: nat, i2: nat, i3: nat)
    requires i1 <= i2 <= i3 < |ws|
  {
    forall j :: 0 <= j < |ws| ==> ListFrom(ws, e, i1, i2, i3) != Truth(ws[j], e)
  }

  /** What may be written while a load is under way without its list becoming false: any one
      table as often as one likes; of two tables, at most one statement between the reads of
      the two. */
  predicate Safe(kinds: set<Stored>, i1: nat, i2: nat, i3: nat) {
    if InMembers in kinds && InLinks in kinds then i3 <= i1 + 1
    else if InMembers in kinds && InParents in kinds then i2 <= i1 + 1
    else if InParents in kinds && InLinks in kinds then i3 <= i2 + 1
    else true
  }

  lemma {:induction false} UntouchedStays(ws: seq<World>, kinds: set<Stored>, lo: nat, hi: nat)
    requires lo <= hi && Statements(ws, kinds, lo, hi)
    ensures InMembers !in kinds ==> ws[hi].members == ws[lo].members
    ensures InParents !in kinds ==> ws[hi].parents == ws[lo].parents
    ensures InLinks !in kinds ==> ws[hi].links == ws[lo].links
    decreases hi
  {
    if lo < hi {
      UntouchedStays(ws, kinds, lo, hi - 1);
      assert OneStatement(ws[hi - 1], ws[hi - 1 + 1], kinds);
    }
  }

  /** The list is the truth of the world of one read if the other two reads would have found the
      same there. */
  lemma OneReadDecides(ws: seq<World>, e: Email, i1: nat, i2: nat, i3: nat)
    requires i1 <= i2 <= i3 < |ws|
    ensures ws[i2].parents == ws[i1].parents && ws[i3].links == ws[i1].links ==>
      ListFrom(ws, e, i1, i2, i3) == Truth(ws[i1], e)
    ensures ws[i1].members == ws[i2].members && ws[i3].links == ws[i2].links ==>
      ListFrom(ws, e, i1, i2, i3) == Truth(ws[i2], e)
    ensures ws[i1].members == ws[i3].members && ws[i2].parents == ws[i3].parents ==>
      ListFrom(ws, e, i1, i2, i3) == Truth(ws[i3], e)
  {
  }

  /** At most one statement leaves two of the three tables alone. */
  predicate TwoSame(w: World, w': World) {
    || (w.members == w'.members && w.parents == w'.parents)
    || (w.members == w'.members && w.links == w'.links)
    || (w.parents == w'.parents && w.links == w'.links)
  }

  lemma OneStatementSparesTwo(ws: seq<World>, kinds: set<Stored>, lo: nat, hi: nat)
    requires lo <= hi <= lo + 1 && Statements(ws, kinds, lo, hi)
    ensures TwoSame(ws[lo], ws[hi])
  {
    if lo < hi {
      assert OneStatement(ws[lo], ws[lo + 1], kinds);
    }
  }

  lemma SafeIsTrue(ws: seq<World>, kinds: set<Stored>, e: Email, i1: nat, i2: nat, i3: nat)
    requires i1 <= i2 <= i3 < |ws| && Statements(ws, kinds, i1, i3) && Safe(kinds, i1, i2, i3)
    ensures OnceTrue(ws, e, i1, i2, i3)
  {
    assert Statements(ws, kinds, i1, i2) && Statements(ws, kinds, i2, i3);
    OneReadDecides(ws, e, i1, i2, i3);
    UntouchedStays(ws, kinds, i1, i2);
    UntouchedStays(ws, kinds, i2, i3);
    if InMembers in kinds && InLinks in kinds {
      OneStatementSparesTwo(ws, kinds, i1, i3);
      assert i2 == i1 || i2 == i3;
    } else if InMembers in kinds && InParents in kinds {
      OneStatementSparesTwo(ws, kinds, i1, i2);
    } else if InParents in kinds && InLinks in kinds {
      OneStatementSparesTwo(ws, kinds, i2, i3);
    }
  }

  /** A history of three worlds: the first up to `a`, the last from `b` on. */
  function Three(w0: World, w1: World, w2: World, a: nat, b: nat, n: nat): (ws: seq<World>)
    ensures |ws| == n
    ensures forall j :: 0 <= j < n ==> ws[j] == if j <= a then w0 else if j < b then w1 else w2
  {
    seq(n, j => if j <= a then w0 else if j < b then w1 else w2)
  }

  lemma ThreeAreStatements(w0: World, w1: World, w2: World, a: nat, b: nat, n: nat, kinds: set<Stored>)
    requires a + 2 <= b < n && OneStatement(w0, w1, kinds) && OneStatement(w1, w2, kinds)
    ensures Statements(Three(w0, w1, w2, a, b, n), kinds, 0, n - 1)
  {
    var ws := Three(w0, w1, w2, a, b, n);
    forall j | 0 <= j < n - 1 ensures OneStatement(ws[j], ws[j + 1], kinds) {
    }
  }

  lemma LinksOfSeven(w: World)
    ensures w.links == {} ==> LinksOf(w, Some(7)) == {}
    ensures w.links == {(7, "b")} ==> LinksOf(w, Some(7)) == {"b"}
  {
    if w.links == {(7, "b")} {
      assert (7, "b") in w.links;
    }
  }

  predicate LacksOne(w: World, e: Email) { "a" !in Truth(w, e) || "b" !in Truth(w, e) }

  /** A list of "a" and "b" is never true if no world has both. */
  lemma NeverBoth(w0: World, w1: World, w2: World, a: nat, b: nat, e: Email, i1: nat, i2: nat, i3: nat)
    requires i1 <= i2 <= i3 && LacksOne(w0, e) && LacksOne(w1, e) && LacksOne(w2, e)
    ensures var ws := Three(w0, w1, w2, a, b, i3 + 1);
      "a" in ListFrom(ws, e, i1, i2, i3) && "b" in ListFrom(ws, e, i1, i2, i3) ==> NeverTrue(ws, e, i1, i2, i3)
  {
    var ws := Three(w0, w1, w2, a, b, i3 + 1);
    forall j | 0 <= j < |ws| ensures LacksOne(ws[j], e) {
    }
  }

  /** The membership goes, then a link comes: the list has both. */
  lemma MembersThenLinks(e: Email, i1: nat, i2: nat, i3: nat) returns (ws: seq<World>)
    requires i1 <= i2 <= i3 && i1 + 2 <= i3
    ensures |ws| == i3 + 1 && Statements(ws, {InMembers, InLinks}, 0, i3) && NeverTrue(ws, e, i1, i2, i3)
  {
    var w0 := World(map[e := map["a" := "teacher"]], map[e := 7], {});
    var w1 := World(map[], map[e := 7], {});
    var w2 := World(map[], map[e := 7], {(7, "b")});
    assert OnlyTouches(w0, w1, InMembers) && OnlyTouches(w1, w2, InLinks);
    ws := Three(w0, w1, w2, i1, i3, i3 + 1);
    ThreeAreStatements(w0, w1, w2, i1, i3, i3 + 1, {InMembers, InLinks});
    LinksOfSeven(w0);
    LinksOfSeven(w2);
    assert LacksOne(w0, e) && LacksOne(w1, e) && LacksOne(w2, e);
    NeverBoth(w0, w1, w2, i1, i3, e, i1, i2, i3);
  }

  /** The membership goes, then the parent's account comes. */
  lemma MembersThenParents(e: Email, i1: nat, i2: nat, i3: nat) returns (ws: seq<World>)
    requires i1 <= i2 <= i3 && i1 + 2 <= i2
    ensures |ws| == i3 + 1 && Statements(ws, {InMembers, InParents}, 0, i3) && NeverTrue(ws, e, i1, i2, i3)
  {
    var w0 := World(map[e := map["a" := "teacher"]], map[], {(7, "b")});
    var w1 := World(map[], map[], {(7, "b")});
    var w2 := World(map[], map[e := 7], {(7, "b")});
    assert OnlyTouches(w0, w1, InMembers) && OnlyTouches(w1, w2, InParents);
    ws := Three(w0, w1, w2, i1, i2, i3 + 1);
    ThreeAreStatements(w0, w1, w2, i1, i2, i3 + 1, {InMembers, InParents});
    LinksOfSeven(w2);
    assert LacksOne(w0, e) && LacksOne(w1, e) && LacksOne(w2, e);
    NeverBoth(w0, w1, w2, i1, i2, e, i1, i2, i3);
  }

  /** The parent's account goes, then a link to it comes. */
  lemma ParentsThenLinks(e: Email, i1: nat, i2: nat, i3: nat) returns (ws: seq<World>)
    requires i1 <= i2 <= i3 && i2 + 2 <= i3
    ensures |ws| == i3 + 1 && Statements(ws, {InParents, InLinks}, 0, i3) && NeverTrue(ws, e, i1, i2, i3)
  {
    var w0 := World(map[], map[e := 7], {});
    var w1 := World(map[], map[], {});
    var w2 := World(map[], map[], {(7, "b")});
    assert OnlyTouches(w0, w1, InParents) && OnlyTouches(w1, w2, InLinks);
    ws := Three(w0, w1, w2, i2, i3, i3 + 1);
    ThreeAreStatements(w0, w1, w2, i2, i3, i3 + 1, {InParents, InLinks});
    assert (7, "b") in w2.links && "b" in LinksOf(w2, Some(7));
    assert "b" in ListFrom(ws, e, i1, i2, i3);
    assert "b" !in Truth(w0, e) && "b" !in Truth(w1, e) && "b" !in Truth(w2, e);
  }

  lemma MoreKinds(ws: seq<World>, kinds: set<Stored>, more: set<Stored>, lo: nat, hi: nat)
    requires Statements(ws, kinds, lo, hi) && kinds <= more
    ensures Statements(ws, more, lo, hi)
  {
    forall j | lo <= j < hi ensures OneStatement(ws[j], ws[j + 1], more) {
      assert OneStatement(ws[j], ws[j + 1], kinds);
    }
  }

  lemma UnsafeMayBeFalse(kinds: set<Stored>, e: Email, i1: nat, i2: nat, i3: nat) returns (ws: seq<World>)
    requires i1 <= i2 <= i3 && !Safe(kinds, i1, i2, i3)
    ensures |ws| == i3 + 1 && Statements(ws, kinds, 0, i3) && NeverTrue(ws, e, i1, i2, i3)
  {
    if InMembers in kinds && InLinks in kinds {
      ws := MembersThenLinks(e, i1, i2, i3);
      MoreKinds(ws, {InMembers, InLinks}, kinds, 0, i3);
    } else if InMembers in kinds {
      ws := MembersThenParents(e, i1, i2, i3);
      MoreKinds(ws, {InMembers, InParents}, kinds, 0, i3);
    } else {
      ws := ParentsThenLinks(e, i1, i2, i3);
      MoreKinds(ws, {InParents, InLinks}, kinds, 0, i3);
    }
  }

  /** Writers that change one table per statement: whatever they write to these tables, the list
      of a load with these reads was true at some moment of the load, if and only if the load is
      safe. */
  lemma WhenALoadIsTrue(kinds: set<Stored>, e: Email, i1: nat, i2: nat, i3: nat)
    requires i1 <= i2 <= i3
    ensures (forall ws: seq<World> :: |ws| == i3 + 1 && Statements(ws, kinds, 0, i3) ==> OnceTrue(ws, e, i1, i2, i3))
            <==> Safe(kinds, i1, i2, i3)
  {
    if Safe(kinds, i1, i2, i3) {
      forall ws: seq<World> | |ws| == i3 + 1 && Statements(ws, kinds, 0, i3) ensures OnceTrue(ws, e, i1, i2, i3) {
        SafeIsTrue(ws, kinds, e, i1, i2, i3);
      }
    } else {
      var ws := UnsafeMayBeFalse(kinds, e, i1, i2, i3);
      assert !OnceTrue(ws, e, i1, i2, i3);
    }
  }

  /** Writers that change several tables in one transaction: then only a load with no write
      between its reads is safe. */
  lemma WhenALoadIsTrueAmongTransactions(e: Email, i1: nat, i2: nat, i3: nat)
    requires i1 <= i2 <= i3
    ensures (forall ws: seq<World> :: |ws| == i3 + 1 ==> OnceTrue(ws, e, i1, i2, i3)) <==> i1 == i3
  {
    if i1 == i3 {
      forall ws: seq<World> | |ws| == i3 + 1 ensures OnceTrue(ws, e, i1, i2, i3) {
        assert ListFrom(ws, e, i1, i2, i3) == Truth(ws[i1], e);
      }
    } else {
      var w0 := World(map[e := map["a" := "teacher"]], map[e := 7], {});
      var w1 := World(map[], map[e := 7], {(7, "b")});
      var ws := Three(w0, w1, w1, i1, i3, i3 + 1);
      LinksOfSeven(w0);
      LinksOfSeven(w1);
      assert LacksOne(w0, e) && LacksOne(w1, e);
      NeverBoth(w0, w1, w1, i1, i3, e, i1, i2, i3);
      assert !OnceTrue(ws, e, i1, i2, i3);
    }
  }

  /** In a run: a list served after a safe load was true at some moment of that load. */
  lemma SafeLoadIsTrue(s: State, acts: seq<Action>, k: TaskId, kinds: set<Stored>)
    requires Initial(s) && Run(s, acts) && k in After(s, acts).tasks && After(s, acts).tasks[k].pc.Served?
    requires var e := After(s, acts);
      var from := e.tasks[k].pc.source;
      Statements(e.worlds, kinds, from.i1, from.i3) && Safe(kinds, from.i1, from.i2, from.i3)
    ensures var e := After(s, acts);
      var task := e.tasks[k];
      var from := task.pc.source;
      exists j :: from.i1 <= j <= from.i3 < |e.worlds| && task.pc.memberships == Truth(e.worlds[j], task.email)
  {
    EveryListIsRecent(s, acts, k);
    var e := After(s, acts);
    var from := e.tasks[k].pc.source;
    SafeIsTrue(e.worlds, kinds, e.tasks[k].email, from.i1, from.i2, from.i3);
  }

  // Every choice of worlds for the three reads is the schedule of some run.

  function Writes(ws: seq<World>): (acts: seq<Action>)
    ensures |acts| == |ws|
  {
    if ws == [] then [] else [Write(ws[0])] + Writes(ws[1..])
  }

  function Nows(now: Time, n: nat): (since: seq<Time>)
    ensures |since| == n
  {
    if n == 0 then [] else [now] + Nows(now, n - 1)
  }

  lemma {:induction false} RunWrites(s: State, ws: seq<World>)
    requires WellFormed(s)
    ensures Run(s, Writes(ws))
    ensures After(s, Writes(ws)) == s.(worlds := s.worlds + ws, since := s.since + Nows(s.now, |ws|))
    decreases |ws|
  {
    if ws == [] {
      assert s.worlds + ws == s.worlds && s.since + Nows(s.now, 0) == s.since;
    } else {
      var t := Next(s, Write(ws[0]));
      RunWrites(t, ws[1..]);
      Cons(s, Write(ws[0]), Writes(ws[1..]));
      assert t.worlds + ws[1..] == s.worlds + ws;
      assert t.since + Nows(s.now, |ws| - 1) == s.since + Nows(s.now, |ws|);
    }
  }

  lemma {:induction false} RunConcat(s: State, a: seq<Action>, b: seq<Action>)
    requires Run(s, a) && Run(After(s, a), b)
    ensures Run(s, a + b) && After(s, a + b) == After(After(s, a), b)
    decreases |a|
  {
    if a == [] {
      assert a + b == b;
    } else {
      RunConcat(Next(s, a[0]), a[1..], b);
      Cons(s, a[0], a[1..] + b);
      assert [a[0]] + (a[1..] + b) == a + b;
    }
  }

  /** One step, then the writes of `ws[lo..hi]`. */
  lemma StepThenWrites(s: State, a: Action, ws: seq<World>, lo: nat, hi: nat) returns (acts: seq<Action>)
    requires lo <= hi <= |ws| && Enabled(s, a) && !a.Write? && Next(s, a).worlds == ws[..lo]
    ensures Run(s, acts)
    ensures var t := After(s, acts); t.worlds == ws[..hi] && t.tasks == Next(s, a).tasks && t.cache == Next(s, a).cache
  {
    RunWrites(Next(s, a), ws[lo..hi]);
    Cons(s, a, Writes(ws[lo..hi]));
    acts := [a] + Writes(ws[lo..hi]);
    assert ws[..lo] + ws[lo..hi] == ws[..hi];
  }

  lemma ToFirstRead(ws: seq<World>, e: Email, i1: nat, i2: nat) returns (s: State, acts: seq<Action>)
    requires i1 <= i2 < |ws|
    ensures Initial(s) && Run(s, acts)
    ensures var t := After(s, acts);
      && t.worlds == ws[..i2 + 1] && 0 in t.tasks && t.tasks[0].email == e
      && t.tasks[0].pc.GotMembers? && t.tasks[0].pc.i1 == i1 && t.tasks[0].pc.members == MembersOf(ws[i1], e)
  {
    s := State(0, [ws[0]], [0], map[], map[]);
    assert ws[..1] == [ws[0]];
    var a1 := StepThenWrites(s, Begin(0, e), ws, 1, i1 + 1);
    var s1 := After(s, a1);
    var a2 := StepThenWrites(s1, ReadMembers(0), ws, i1 + 1, i2 + 1);
    RunConcat(s, a1, a2);
    acts := a1 + a2;
  }

  lemma FromSecondRead(s: State, ws: seq<World>, i2: nat) returns (acts: seq<Action>)
    requires WellFormed(s) && i2 < |ws| && s.worlds == ws[..i2 + 1] && 0 in s.tasks && s.tasks[0].pc.GotMembers?
    ensures Run(s, acts)
    ensures var t := After(s, acts);
      && t.worlds == ws && 0 in t.tasks && t.tasks[0].email == s.tasks[0].email && t.tasks[0].pc.Served?
      && t.tasks[0].pc.source.i1 == s.tasks[0].pc.i1 && t.tasks[0].pc.source.i2 == i2
      && t.tasks[0].pc.source.i3 == |ws| - 1
      && t.tasks[0].pc.memberships ==
         Combined(s.tasks[0].pc.members, LinksOf(ws[|ws| - 1], ParentOf(ws[i2], s.tasks[0].email)))
  {
    var a3 := StepThenWrites(s, ReadParent(0), ws, i2 + 1, |ws|);
    var s3 := After(s, a3);
    assert ws[..|ws|] == ws;
    Cons(s3, ReadLinks(0), []);
    RunConcat(s, a3, [ReadLinks(0)] + []);
    acts := a3 + ([ReadLinks(0)] + []);
  }

  lemma AnySchedule(ws: seq<World>, e: Email, i1: nat, i2: nat, i3: nat) returns (s: State, acts: seq<Action>)
    requires i1 <= i2 <= i3 && |ws| == i3 + 1
    ensures Initial(s) && Run(s, acts)
    ensures var t := After(s, acts);
      && t.worlds == ws && 0 in t.tasks && t.tasks[0].email == e && t.tasks[0].pc.Served?
      && t.tasks[0].pc.source.i1 == i1 && t.tasks[0].pc.source.i2 == i2 && t.tasks[0].pc.source.i3 == i3
      && t.tasks[0].pc.memberships == ListFrom(ws, e, i1, i2, i3)
  {
    var a, b;
    s, a := ToFirstRead(ws, e, i1, i2);
    b := FromSecondRead(After(s, a), ws, i2);
    RunConcat(s, a, b);
    acts := a + b;
  }

  /** And the other half in runs: however an unsafe load's reads are placed among the writes,
      there is a run of single-table writes that serves a list which was never true. */
  lemma DisturbedLoadMayBeFalse(kinds: set<Stored>, e: Email, i1: nat, i2: nat, i3: nat)
    requires i1 <= i2 <= i3 && !Safe(kinds, i1, i2, i3)
    ensures exists s: State, acts: seq<Action> ::
      && Initial(s) && Run(s, acts)
      && var t := After(s, acts);
         && Statements(t.worlds, kinds, 0, i3) && |t.worlds| == i3 + 1
         && 0 in t.tasks && t.tasks[0].email == e && t.tasks[0].pc.Served?
         && t.tasks[0].pc.source.i1 == i1 && t.tasks[0].pc.source.i2 == i2 && t.tasks[0].pc.source.i3 == i3
         && forall j :: 0 <= j < |t.worlds| ==> Truth(t.worlds[j], e) != t.tasks[0].pc.memberships
  {
    var ws := UnsafeMayBeFalse(kinds, e, i1, i2, i3);
    var s, acts := AnySchedule(ws, e, i1, i2, i3);
  }

  // ------------------------------------------------------------------
  // Reading one's own writes
  // ------------------------------------------------------------------

  predicate Loading(task: Task) { task.pc.GotMembers? || task.pc.GotParent? }

  /** Whatever is cached or under way for `email` stems from world `i` or later, or is too old to
      be served from the cache. */
  ghost predicate UpToDate(s: State, email: Email, i: nat) {
    && (email in s.cache ==> s.cache[email].source.i1 >= i || s.now >= s.cache[email].stamp + TTL)
    && (forall k :: k in s.tasks && s.tasks[k].email == email && Loading(s.tasks[k]) ==>
          s.tasks[k].pc.i1 >= i || s.now >= s.tasks[k].started + TTL)
    && i < |s.worlds|
  }

  lemma StepKeepsCurrent(s: State, a: Action, email: Email, i: nat)
    requires Enabled(s, a) && UpToDate(s, email, i)
    ensures UpToDate(Next(s, a), email, i)
  {
  }

  /** The request `k` for `email` has not read anything older than world `i`. */
  predicate Unspoilt(s: State, email: Email, i: nat, k: TaskId) {
    k in s.tasks && s.tasks[k].email == email ==>
      match s.tasks[k].pc
      case GotMembers(_, i1, _) => i1 >= i
      case GotParent(_, _, i1, _, _, _) => i1 >= i
      case Served(_, _, source, _) => source.i1 >= i
      case _ => true
  }

  lemma StepKeepsUnspoilt(s: State, a: Action, email: Email, i: nat, k: TaskId)
    requires Enabled(s, a) && UpToDate(s, email, i) && Unspoilt(s, email, i, k)
    ensures Unspoilt(Next(s, a), email, i, k)
  {
  }

  /** A request that begins from such a state on, served at any later time, saw world `i` or a
      later one in every read. */
  lemma {:induction false} ReadsAreCurrent(s: State, acts: seq<Action>, email: Email, i: nat, k: TaskId)
    requires Run(s, acts) && UpToDate(s, email, i) && Unspoilt(s, email, i, k)
    ensures Unspoilt(After(s, acts), email, i, k)
    decreases |acts|
  {
    if acts != [] {
      StepKeepsCurrent(s, acts[0], email, i);
      StepKeepsUnspoilt(s, acts[0], email, i, k);
      ReadsAreCurrent(Next(s, acts[0]), acts[1..], email, i, k);
    }
  }

  /** A load of `email` is past its first read and would still store a servable list. */
  predicate Dangerous(s: State, email: Email, j: TaskId) {
    j in s.tasks && s.tasks[j].email == email && Loading(s.tasks[j]) && s.now < s.tasks[j].started + TTL
  }

  /** The state right after `upsert_user_tenant_map` has written and invalidated. */
  function Upserted(s: State, w: World, email: Email): State
    requires WellFormed(s)
  {
    Next(Next(s, Write(w)), Invalidate(email))
  }

  /** The request `k` begins after the write and is served, at the end of the run, from reads
      that all saw it. */
  ghost predicate Sees(s: State, w: World, email: Email, acts: seq<Action>, k: TaskId)
    requires WellFormed(s) && Run(Upserted(s, w, email), acts)
  {
    var e := After(Upserted(s, w, email), acts);
    k !in s.tasks && k in e.tasks && e.tasks[k].email == email && e.tasks[k].pc.Served? ==>
      e.tasks[k].pc.source.i1 >= |s.worlds|
  }

  lemma WriteIsSeen(s: State, w: World, email: Email, acts: seq<Action>, k: TaskId)
    requires WellFormed(s) && Run(Upserted(s, w, email), acts) && forall j :: !Dangerous(s, email, j)
    ensures Sees(s, w, email, acts, k)
  {
    var t := Upserted(s, w, email);
    forall j | j in t.tasks && t.tasks[j].email == email && Loading(t.tasks[j])
      ensures t.tasks[j].pc.i1 >= |s.worlds| || t.now >= t.tasks[j].started + TTL
    {
      assert !Dangerous(s, email, j);
    }
    if k !in s.tasks {
      ReadsAreCurrent(t, acts, email, |s.worlds|, k);
    }
  }

  lemma {:induction false} SomeNewTask(ks: set<TaskId>) returns (k: TaskId)
    ensures forall x :: x in ks ==> x < k
    decreases |ks|
  {
    if |ks| == 0 {
      k := 0;
    } else {
      var x :| x in ks;
      var k' := SomeNewTask(ks - {x});
      k := if x < k' then k' else x + 1;
      forall y | y in ks ensures y < k {
        assert y == x || y in ks - {x};
      }
    }
  }

  /** A dangerous load hides the write: it stores after the invalidation what it read before the
      write, and the next request is served from that. */
  lemma LateStoreHidesTheWrite(s: State, w: World, email: Email, j: TaskId) returns (acts: seq<Action>, k: TaskId)
    requires Inv(s) && Dangerous(s, email, j)
    ensures Run(Upserted(s, w, email), acts) && !Sees(s, w, email, acts, k)
  {
    assert TaskOk(s, s.tasks[j]);
    var t := Upserted(s, w, email);
    k := SomeNewTask(s.tasks.Keys);
    assert k !in s.tasks.Keys;
    if s.tasks[j].pc.GotMembers? {
      var t1 := Next(t, ReadParent(j));
      var rest := StoreThenHit(t1, email, j, k);
      Cons(t, ReadParent(j), rest);
      acts := [ReadParent(j)] + rest;
    } else {
      acts := StoreThenHit(t, email, j, k);
    }
  }

  lemma StoreThenHit(t: State, email: Email, j: TaskId, k: TaskId) returns (acts: seq<Action>)
    requires WellFormed(t) && Dangerous(t, email, j) && t.tasks[j].pc.GotParent? && k !in t.tasks
    ensures Run(t, acts)
    ensures var e := After(t, acts);
      k in e.tasks && e.tasks[k].email == email && e.tasks[k].pc.Served? && e.tasks[k].pc.source.i1 == t.tasks[j].pc.i1
  {
    var t1 := Next(t, ReadLinks(j));
    Cons(t1, Begin(k, email), []);
    Cons(t, ReadLinks(j), [Begin(k, email)] + []);
    acts := [ReadLinks(j)] + ([Begin(k, email)] + []);
  }

  /** After a writer has written and invalidated, every request that begins later sees the write,
      in every continuation, if and only if no load of that address is past its first read and
      less than 30 seconds old. */
  lemma WriterIsSeen(s: State, w: World, email: Email)
    requires Inv(s)
    ensures (forall acts, k :: Run(Upserted(s, w, email), acts) ==> Sees(s, w, email, acts, k))
            <==> (forall j :: !Dangerous(s, email, j))
  {
    if j :| Dangerous(s, email, j) {
      var acts, k := LateStoreHidesTheWrite(s, w, email, j);
    } else {
      forall acts, k | Run(Upserted(s, w, email), acts) ensures Sees(s, w, email, acts, k) {
        WriteIsSeen(s, w, email, acts, k);
      }
    }
  }

  // ------------------------------------------------------------------
  // Atomic requests
  // ------------------------------------------------------------------

  /** Requests that run without anything in between. */
  datatype Request =
    | Serve(k: TaskId, email: Email)
    | Upsert(world: World, email: Email)
    | OtherWrite(world: World)          // a writer that does not invalidate
    | ClearCache
    | Wait(seconds: nat)

  predicate Quiet(s: State) { forall j :: j in s.tasks ==> !Loading(s.tasks[j]) }

  predicate Open(s: State, r: Request) { WellFormed(s) && (r.Serve? ==> r.k !in s.tasks) }

  function Atomically(s: State, r: Request): (t: State)
    requires Open(s, r)
    ensures WellFormed(t)
  {
    match r
    case Serve(k, email) =>
      var s1 := Next(s, Begin(k, email));
      if s1.tasks[k].pc.Served? then s1
      else Next(Next(Next(s1, ReadMembers(k)), ReadParent(k)), ReadLinks(k))
    case Upsert(w, email) => Upserted(s, w, email)
    case OtherWrite(w) => Next(s, Write(w))
    case ClearCache => Next(s, InvalidateAll)
    case Wait(seconds) => Next(s, Tick(seconds))
  }

  predicate AtomicRun(s: State, requests: seq<Request>)
    decreases |requests|
  {
    WellFormed(s) && (requests == [] || (Open(s, requests[0]) && AtomicRun(Atomically(s, requests[0]), requests[1..])))
  }

  function AfterAll(s: State, requests: seq<Request>): State
    requires AtomicRun(s, requests)
    decreases |requests|
  {
    if requests == [] then s else AfterAll(Atomically(s, requests[0]), requests[1..])
  }

  /** The list stems from one world, `i` or later, and was true in it. */
  predicate TrueFrom(s: State, email: Email, i: nat, list: map<Tenant, string>, from: Source) {
    i <= from.i1 == from.i3 < |s.worlds| && list == Truth(s.worlds[from.i1], email)
  }

  predicate AtomicOk(s: State, email: Email, i: nat, k: TaskId) {
    && Quiet(s) && i < |s.worlds|
    && (email in s.cache ==> TrueFrom(s, email, i, s.cache[email].memberships, s.cache[email].source))
    && (k in s.tasks && s.tasks[k].email == email && s.tasks[k].pc.Served? ==>
          TrueFrom(s, email, i, s.tasks[k].pc.memberships, s.tasks[k].pc.source))
    && (k in s.tasks && s.tasks[k].email == email ==> s.tasks[k].pc.Served?)
  }

  lemma AtomicStepKeepsOk(s: State, r: Request, email: Email, i: nat, k: TaskId)
    requires Open(s, r) && AtomicOk(s, email, i, k)
    ensures AtomicOk(Atomically(s, r), email, i, k)
  {
    if r.Serve? {
      ServingKeepsOk(s, r.k, r.email, email, i, k);
    }
  }

  lemma ServingKeepsOk(s: State, j: TaskId, who: Email, email: Email, i: nat, k: TaskId)
    requires WellFormed(s) && j !in s.tasks && AtomicOk(s, email, i, k)
    ensures AtomicOk(Atomically(s, Serve(j, who)), email, i, k)
  {
    if Fresh(s, who) {
      HitKeepsOk(s, j, who, email, i, k);
    } else {
      MissIsLoaded(s, j, who);
    }
  }

  lemma HitKeepsOk(s: State, j: TaskId, who: Email, email: Email, i: nat, k: TaskId)
    requires WellFormed(s) && j !in s.tasks && AtomicOk(s, email, i, k) && Fresh(s, who)
    ensures AtomicOk(Next(s, Begin(j, who)), email, i, k) && Next(s, Begin(j, who)).tasks[j].pc.Served?
  {
  }

  /** What an atomic load leaves behind. */
  lemma MissIsLoaded(s: State, j: TaskId, who: Email)
    requires WellFormed(s) && j !in s.tasks && !Fresh(s, who)
    ensures var t := Atomically(s, Serve(j, who));
      var i := |s.worlds| - 1;
      && t.worlds == s.worlds && t.tasks.Keys == s.tasks.Keys + {j} && t.cache.Keys == s.cache.Keys + {who}
      && (forall x :: x in s.tasks ==> t.tasks[x] == s.tasks[x])
      && (forall x :: x in s.cache && x != who ==> t.cache[x] == s.cache[x])
      && t.tasks[j].email == who && t.tasks[j].pc.Served?
      && t.cache[who].source == t.tasks[j].pc.source && t.cache[who].memberships == t.tasks[j].pc.memberships
      && t.tasks[j].pc.source.i1 == t.tasks[j].pc.source.i3 == i && t.tasks[j].pc.memberships == Truth(s.worlds[i], who)
  {
  }

  lemma {:induction false} AtomicRunKeepsOk(s: State, requests: seq<Request>, email: Email, i: nat, k: TaskId)
    requires AtomicRun(s, requests) && AtomicOk(s, email, i, k)
    ensures AtomicOk(AfterAll(s, requests), email, i, k)
    decreases |requests|
  {
    if requests != [] {
      AtomicStepKeepsOk(s, requests[0], email, i, k);
      AtomicRunKeepsOk(Atomically(s, requests[0]), requests[1..], email, i, k);
    }
  }

  /** With atomic requests, every later read sees the write, and what it is served was the true
      membership map of one moment since. */
  lemma AtomicReadersSeeTheWrite(s: State, w: World, email: Email, requests: seq<Request>, k: TaskId)
    requires WellFormed(s) && Quiet(s) && k !in s.tasks && AtomicRun(Upserted(s, w, email), requests)
    requires var e := AfterAll(Upserted(s, w, email), requests); k in e.tasks && e.tasks[k].email == email
    ensures var e := AfterAll(Upserted(s, w, email), requests);
      && e.tasks[k].pc.Served?
      && TrueFrom(e, email, |s.worlds|, e.tasks[k].pc.memberships, e.tasks[k].pc.source)
  {
    AtomicRunKeepsOk(Upserted(s, w, email), requests, email, |s.worlds|, k);
  }
}

/** The cache object and the loading code: dictionaries and lists updated and copied in place. */
module MembershipCache {
  import opened Wrappers
  import opened CacheSteps

  datatype Membership = Membership(tenant: Tenant, role: string)

  /** Lists are mutable objects, so an entry holds a reference. */
  datatype CachedList = CachedList(stamp: Time, list: array<Membership>)

  /** `{m["tenant_id"]: m["role"] for m in rows}`. */
  function AsMap(rows: seq<Membership>): (m: map<Tenant, string>)
    ensures forall t :: t in m <==> exists i :: 0 <= i < |rows| && rows[i].tenant == t
  {
    if rows == [] then map[]
    else AsMap(rows[..|rows| - 1])[rows[|rows| - 1].tenant := rows[|rows| - 1].role]
  }

  lemma OneMoreLink(members: map<Tenant, string>, links: set<Tenant>, t: Tenant)
    ensures Combined(members, links + {t}) ==
            var m := Combined(members, links); if t in m then m else m[t := "parent"]
  {
  }

  /** `_membership_map.setdefault(tid, "parent")` for each linked school. */
  method AddLinks(members: map<Tenant, string>, linked: seq<Tenant>) returns (m: map<Tenant, string>)
    ensures m == Combined(members, set t | t in linked)
  {
    m := members;
    ghost var done: set<Tenant> := {};
    for i := 0 to |linked|
      invariant m == Combined(members, done)
      invariant forall t :: t in done <==> t in linked[..i]
    {
      assert linked[..i + 1] == linked[..i] + [linked[i]];
      OneMoreLink(members, done, linked[i]);
      done := done + {linked[i]};
      if linked[i] !in m {
        m := m[linked[i] := "parent"];
      }
    }
    assert linked[..|linked|] == linked;
    assert done == set t | t in linked;
  }

  /** The two steps that build `_membership_map`. */
  method BuildMembershipMap(rows: seq<Membership>, linked: seq<Tenant>) returns (m: map<Tenant, string>)
    ensures m == Combined(AsMap(rows), set t | t in linked)
  {
    m := map[];
    for i := 0 to |rows|
      invariant m == AsMap(rows[..i])
    {
      assert rows[..i + 1][..i] == rows[..i];
      m := m[rows[i].tenant := rows[i].role];
    }
    assert rows[..|rows|] == rows;
    m := AddLinks(m, linked);
  }

  class Cache {
    var entries: map<Email, CachedList>

    constructor ()
      ensures entries == map[]
    {
      entries := map[];
    }

    /** The hit path: `[dict(m) for m in cached[1]]`, a list of its own. */
    method Read(email: Email, now: Time) returns (hit: bool, memberships: array<Membership>)
      ensures hit <==> email in entries && now < entries[email].stamp + TTL
      ensures fresh(memberships)
      ensures memberships[..] == if hit then entries[email].list[..] else []
    {
      hit := email in entries && now < entries[email].stamp + TTL;
      if hit {
        memberships := Copy(entries[email].list);
      } else {
        memberships := new Membership[0];
      }
    }

    /** The miss path: the stored list is another copy, not the list handed to the request. */
    method Store(email: Email, started: Time, memberships: array<Membership>)
      modifies this
      ensures email in entries && fresh(entries[email].list) && entries[email].list != memberships
      ensures entries[email].stamp == started && entries[email].list[..] == memberships[..]
      ensures forall e :: e != email ==>
        (e in entries <==> e in old(entries)) && (e in entries ==> entries[e] == old(entries)[e])
    {
      var copy := Copy(memberships);
      entries := entries[email := CachedList(started, copy)];
    }

    /** `invalidate_membership_cache`. */
    method Invalidate(email: Option<Email>)
      modifies this
      ensures entries == if email.Some? then old(entries) - {email.value} else map[]
    {
      entries := if email.Some? then entries - {email.value} else map[];
    }
  }

  method Copy(list: array<Membership>) returns (copy: array<Membership>)
    ensures fresh(copy) && copy[..] == list[..]
  {
    copy := new Membership[list.Length](i requires 0 <= i < list.Length reads list => list[i]);
  }

  /** Whatever a request does to the list it was given, the next request reads what was cached. */
  method MutatingTheReturnedList(cache: Cache, email: Email, now: Time, i: nat, junk: Membership)
    returns (first: seq<Membership>, second: seq<Membership>)
    ensures second == first
    ensures email in cache.entries && now < cache.entries[email].stamp + TTL ==>
      first == old(cache.entries[email].list[..])
  {
    var _, mine := cache.Read(email, now);
    first := mine[..];
    if i < mine.Length {
      mine[i] := junk;
    }
    var _, next := cache.Read(email, now);
    second := next[..];
  }
}
