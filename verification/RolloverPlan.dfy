/** Year-rollover planning: `_recompute_rollover_lines` of `app/domains/tenant/service.py`
    and `upsert_rollover_lines` of `app/domains/tenant/tenant_repository.py`. */
module RolloverPlan {
  import opened Wrappers

  /** A BIGSERIAL key. */
  type Id = x: int | x > 0 witness 1

  datatype Action = Promote | Graduate | Hold | Withdraw
  datatype Code = NoNextLevel | NoPlacement | OverCapacity

  /** A class of the coming year that need not exist yet. */
  datatype Target = Target(level: Option<Id>, section: Option<string>)

  /** One row of `get_rollover_plan_facts`: an enrolled student and the class they sit in. */
  datatype Fact = Fact(student: Id, fromClass: Id, capacity: Option<int>, active: bool,
                       section: Option<string>, toLevel: Option<Id>)

  /** A freshly computed line, before it meets the stored one. */
  datatype Line = Line(student: Id, fromClass: Id, target: Target, proposed: Action, code: Option<Code>)

  /** A stored `year_rollover_line`. */
  datatype Row = Row(id: Id, fromClass: Option<Id>, target: Target, proposed: Action,
                     override: Option<Action>, code: Option<Code>, toClass: Option<Id>, applied: bool)

  /** The lines of one rollover, by student (UNIQUE (rollover_id, student_id)). */
  type Table = map<Id, Row>

  const DEFAULT_CAPACITY := 25

  predicate Named(section: Option<string>) { section.Some? && section.value != "" }

  predicate DistinctStudents(facts: seq<Fact>) {
    forall i, j :: 0 <= i < j < |facts| ==> facts[i].student != facts[j].student
  }

  // ------------------------------------------------------------------
  // Classification
  // ------------------------------------------------------------------

  function Proposal(fact: Fact): (Action, Option<Code>) {
    if fact.toLevel.None? then (Graduate, Some(NoNextLevel))
    else if !fact.active || !Named(fact.section) then (Hold, Some(NoPlacement))
    else (Promote, None)
  }

  function Classify(fact: Fact): Line {
    var (proposed, code) := Proposal(fact);
    Line(fact.student, fact.fromClass,
         if proposed.Promote? then Target(fact.toLevel, fact.section) else Target(None, None),
         proposed, code)
  }

  // ------------------------------------------------------------------
  // Effective targets and capacity
  // ------------------------------------------------------------------

  function OverrideOf(existing: Table, student: Id): Option<Action> {
    if student in existing then existing[student].override else None
  }

  /** What will happen to the student: an administrator's override, else the proposal. */
  function EffectiveAction(existing: Table, fact: Fact): Action {
    OverrideOf(existing, fact.student).GetOr(Classify(fact).proposed)
  }

  /** Where the student will go: the override's frozen target, else the proposal's. */
  function EffectiveTarget(existing: Table, fact: Fact): Target {
    if OverrideOf(existing, fact.student).Some? then existing[fact.student].target else Classify(fact).target
  }

  predicate Joins(existing: Table, fact: Fact, key: Target) {
    EffectiveAction(existing, fact).Promote? && EffectiveTarget(existing, fact) == key
  }

  /** Everyone among the first `n` who will join the class `key`, in order. */
  function Sharers(facts: seq<Fact>, existing: Table, n: nat, key: Target): seq<nat>
    requires n <= |facts|
  {
    if n == 0 then []
    else Sharers(facts, existing, n - 1, key) + if Joins(existing, facts[n - 1], key) then [n - 1] else []
  }

  function CapacityOr(capacity: Option<int>): int {
    if capacity.None? || capacity.value == 0 then DEFAULT_CAPACITY else capacity.value
  }

  /** The source capacity of the first joining line whose own proposal is to promote. */
  function SourceCapacity(facts: seq<Fact>, existing: Table, n: nat, key: Target): Option<int>
    requires n <= |facts|
  {
    if n == 0 then None
    else
      var before := SourceCapacity(facts, existing, n - 1, key);
      if before.Some? then before
      else if Joins(existing, facts[n - 1], key) && Classify(facts[n - 1]).proposed.Promote?
      then Some(CapacityOr(facts[n - 1].capacity))
      else None
  }

  predicate Overfull(facts: seq<Fact>, existing: Table, key: Target) {
    |Sharers(facts, existing, |facts|, key)| > SourceCapacity(facts, existing, |facts|, key).GetOr(DEFAULT_CAPACITY)
  }

  /** The line the planner is meant to write for fact `i`. */
  function PlannedLine(facts: seq<Fact>, existing: Table, i: nat): Line
    requires i < |facts|
  {
    var line := Classify(facts[i]);
    if EffectiveAction(existing, facts[i]).Promote? && Overfull(facts, existing, EffectiveTarget(existing, facts[i]))
    then line.(code := Some(OverCapacity))
    else line
  }

  function Plan(facts: seq<Fact>, existing: Table): (lines: seq<Line>)
    ensures |lines| == |facts|
  {
    seq(|facts|, i requires 0 <= i < |facts| => PlannedLine(facts, existing, i))
  }

  // ------------------------------------------------------------------
  // What the two counts mean
  // ------------------------------------------------------------------

  /** The group list holds each joining line once and nothing else. */
  lemma {:induction false} SharersExact(facts: seq<Fact>, existing: Table, n: nat, key: Target)
    requires n <= |facts|
    ensures var g := Sharers(facts, existing, n, key);
      && (forall i: nat :: i in g <==> i < n && Joins(existing, facts[i], key))
      && (forall a, b :: 0 <= a < b < |g| ==> g[a] < g[b])
  {
    if n > 0 {
      SharersExact(facts, existing, n - 1, key);
      var before := Sharers(facts, existing, n - 1, key);
      forall a | 0 <= a < |before| ensures before[a] < n - 1 {
        assert before[a] in before;
      }
    }
  }

  /** The lines among the first `n` that join a class. */
  function Joiners(facts: seq<Fact>, existing: Table, n: nat, key: Target): set<nat>
    requires n <= |facts|
  {
    set i: nat | i < n && Joins(existing, facts[i], key)
  }

  /** So its length is the projected headcount of the class. */
  lemma {:induction false} HeadcountExact(facts: seq<Fact>, existing: Table, n: nat, key: Target)
    requires n <= |facts|
    ensures |Sharers(facts, existing, n, key)| == |Joiners(facts, existing, n, key)|
  {
    if n > 0 {
      HeadcountExact(facts, existing, n - 1, key);
      JoinersGrow(facts, existing, n, key);
    }
  }

  lemma JoinersGrow(facts: seq<Fact>, existing: Table, n: nat, key: Target)
    requires 0 < n <= |facts|
    ensures |Joiners(facts, existing, n, key)| ==
            |Joiners(facts, existing, n - 1, key)| + (if Joins(existing, facts[n - 1], key) then 1 else 0)
  {
    var before: set<nat> := Joiners(facts, existing, n - 1, key);
    var last: set<nat> := if Joins(existing, facts[n - 1], key) then {n - 1} else {};
    assert Joiners(facts, existing, n, key) == before + last;
    assert n - 1 !in before;
  }

  /** Capacity comes from the first line that joins the class and was proposed for promotion
      itself, even when an override is what moved it there; without one it is 25. */
  lemma {:induction false} CapacityIsOfFirst(facts: seq<Fact>, existing: Table, n: nat, key: Target)
    requires n <= |facts|
    ensures var c := SourceCapacity(facts, existing, n, key);
      && (c.None? <==> forall i :: 0 <= i < n ==>
        !(Joins(existing, facts[i], key) && Classify(facts[i]).proposed.Promote?))
      && (c.Some? ==>
            exists i :: 0 <= i < n && Joins(existing, facts[i], key) && Classify(facts[i]).proposed.Promote?
                        && c == Some(CapacityOr(facts[i].capacity))
                        && forall j :: 0 <= j < i ==>
                             !(Joins(existing, facts[j], key) && Classify(facts[j]).proposed.Promote?))
  {
    if n > 0 {
      CapacityIsOfFirst(facts, existing, n - 1, key);
    }
  }

  // ------------------------------------------------------------------
  // The planner itself
  // ------------------------------------------------------------------

  /** The first loop: classify every fact. */
  method ClassifyAll(facts: seq<Fact>) returns (lines: seq<Line>)
    ensures |lines| == |facts|
    ensures forall i :: 0 <= i < |facts| ==> lines[i] == Classify(facts[i])
  {
    lines := [];
    for i := 0 to |facts|
      invariant |lines| == i
      invariant forall j :: 0 <= j < i ==> lines[j] == Classify(facts[j])
    {
      var fact := facts[i];
      var proposed, code;
      if fact.toLevel.None? {
        proposed, code := Graduate, Some(NoNextLevel);
      } else if !fact.active || !Named(fact.section) {
        proposed, code := Hold, Some(NoPlacement);
      } else {
        proposed, code := Promote, None;
      }
      var target := if proposed.Promote? then Target(fact.toLevel, fact.section) else Target(None, None);
      lines := lines + [Line(fact.student, fact.fromClass, target, proposed, code)];
    }
  }

  /** `groups` after the first `n` lines. */
  ghost predicate GroupsOk(facts: seq<Fact>, existing: Table, n: nat, groups: map<Target, seq<nat>>)
    requires n <= |facts|
  {
    && (forall key :: key in groups ==> groups[key] == Sharers(facts, existing, n, key) && groups[key] != [])
    && (forall key :: key !in groups ==> Sharers(facts, existing, n, key) == [])
  }

  /** `capacity_by_key` after the first `n` lines. */
  ghost predicate CapacitiesOk(facts: seq<Fact>, existing: Table, n: nat, capacityByKey: map<Target, int>)
    requires n <= |facts|
  {
    && (forall key :: key in capacityByKey ==> SourceCapacity(facts, existing, n, key) == Some(capacityByKey[key]))
    && (forall key :: key !in capacityByKey ==> SourceCapacity(facts, existing, n, key) == None)
  }

  /** The second loop: `groups` and `capacity_by_key`, filled line by line. */
  method GroupByTarget(facts: seq<Fact>, existing: Table, lines: seq<Line>)
    returns (groups: map<Target, seq<nat>>, capacityByKey: map<Target, int>)
    requires |lines| == |facts| && forall i :: 0 <= i < |facts| ==> lines[i] == Classify(facts[i])
    ensures GroupsOk(facts, existing, |facts|, groups)
    ensures CapacitiesOk(facts, existing, |facts|, capacityByKey)
  {
    groups, capacityByKey := map[], map[];
    for i := 0 to |facts|
      invariant GroupsOk(facts, existing, i, groups)
      invariant CapacitiesOk(facts, existing, i, capacityByKey)
    {
      var line := lines[i];
      var override := if line.student in existing then existing[line.student].override else None;
      var effective := override.GetOr(line.proposed);
      assert effective == EffectiveAction(existing, facts[i]);
      if effective.Promote? {
        var key := if override.Some? then existing[line.student].target else line.target;
        assert Joins(existing, facts[i], key);
        GroupGrows(facts, existing, i, groups, key);
        CapacityGrows(facts, existing, i, capacityByKey, key);
        groups := groups[key := (if key in groups then groups[key] else []) + [i]];
        if line.proposed.Promote? && key !in capacityByKey {
          capacityByKey := capacityByKey[key := CapacityOr(facts[i].capacity)];
        }
      } else {
        NobodyJoins(facts, existing, i, groups, capacityByKey);
      }
    }
  }

  lemma NobodyJoins(facts: seq<Fact>, existing: Table, i: nat, groups: map<Target, seq<nat>>,
                    capacities: map<Target, int>)
    requires i < |facts| && !EffectiveAction(existing, facts[i]).Promote?
    requires GroupsOk(facts, existing, i, groups) && CapacitiesOk(facts, existing, i, capacities)
    ensures GroupsOk(facts, existing, i + 1, groups) && CapacitiesOk(facts, existing, i + 1, capacities)
  {
    assert forall k :: !Joins(existing, facts[i], k);
  }

  lemma GroupGrows(facts: seq<Fact>, existing: Table, i: nat, groups: map<Target, seq<nat>>, key: Target)
    requires i < |facts| && GroupsOk(facts, existing, i, groups) && Joins(existing, facts[i], key)
    ensures GroupsOk(facts, existing, i + 1, groups[key := (if key in groups then groups[key] else []) + [i]])
  {
    assert forall k :: Joins(existing, facts[i], k) <==> k == key;
  }

  lemma CapacityGrows(facts: seq<Fact>, existing: Table, i: nat, capacities: map<Target, int>, key: Target)
    requires i < |facts| && CapacitiesOk(facts, existing, i, capacities) && Joins(existing, facts[i], key)
    ensures CapacitiesOk(facts, existing, i + 1,
                         if Classify(facts[i]).proposed.Promote? && key !in capacities
                         then capacities[key := CapacityOr(facts[i].capacity)] else capacities)
  {
    assert forall k :: Joins(existing, facts[i], k) <==> k == key;
  }

  /** `_recompute_rollover_lines` up to the upsert. */
  method RecomputeLines(facts: seq<Fact>, existing: Table) returns (lines: seq<Line>)
    ensures lines == Plan(facts, existing)
  {
    lines := ClassifyAll(facts);
    var groups, capacityByKey := GroupByTarget(facts, existing, lines);
    var keys := groups.Keys;
    forall j | 0 <= j < |facts| && EffectiveAction(existing, facts[j]).Promote?
      ensures EffectiveTarget(existing, facts[j]) in groups
    {
      SharersExact(facts, existing, |facts|, EffectiveTarget(existing, facts[j]));
    }
    while keys != {}
      invariant keys <= groups.Keys && |lines| == |facts|
      invariant forall j :: 0 <= j < |facts| ==> FlaggedSoFar(facts, existing, keys, j, lines[j])
      decreases keys
    {
      var key :| key in keys;
      var capacity := if key in capacityByKey then capacityByKey[key] else DEFAULT_CAPACITY;
      if |groups[key]| > capacity {
        lines := FlagGroup(facts, existing, key, groups[key], lines);
      }
      keys := keys - {key};
    }
  }

  /** Line `j` is final once its own target is no longer among the groups still to visit. */
  ghost predicate FlaggedSoFar(facts: seq<Fact>, existing: Table, keys: set<Target>, j: nat, line: Line)
    requires j < |facts|
  {
    line == if EffectiveAction(existing, facts[j]).Promote? && EffectiveTarget(existing, facts[j]) !in keys
            then PlannedLine(facts, existing, j) else Classify(facts[j])
  }

  /** `for line in group_lines: line["exception_code"] = "over_capacity"`. */
  method FlagGroup(facts: seq<Fact>, existing: Table, key: Target, group: seq<nat>, lines: seq<Line>)
    returns (flagged: seq<Line>)
    requires |lines| == |facts| && group == Sharers(facts, existing, |facts|, key)
    ensures |flagged| == |facts|
    ensures forall j :: 0 <= j < |facts| ==>
      flagged[j] == if Joins(existing, facts[j], key) then lines[j].(code := Some(OverCapacity)) else lines[j]
  {
    SharersExact(facts, existing, |facts|, key);
    flagged := lines;
    for k := 0 to |group|
      invariant |flagged| == |facts|
      invariant forall j :: 0 <= j < |facts| ==>
        flagged[j] == if j in group[..k] then lines[j].(code := Some(OverCapacity)) else lines[j]
    {
      assert group[k] in group;
      flagged := flagged[group[k] := flagged[group[k]].(code := Some(OverCapacity))];
      assert group[..k + 1] == group[..k] + [group[k]];
    }
    assert group[..|group|] == group;
  }

  // ------------------------------------------------------------------
  // The upsert
  // ------------------------------------------------------------------

  function StudentsOf(lines: seq<Line>): set<Id> { set i | 0 <= i < |lines| :: lines[i].student }

  function Merged(prior: Option<Row>, line: Line, id: Id): Row {
    match prior
    case None => Row(id, Some(line.fromClass), line.target, line.proposed, None, line.code, None, false)
    case Some(row) =>
      row.(fromClass := Some(line.fromClass), proposed := line.proposed, code := line.code,
           target := if row.override.None? then line.target else row.target)
  }

  function Lookup(rows: Table, student: Id): Option<Row> {
    if student in rows then Some(rows[student]) else None
  }

  function InsertAll(rows: Table, lines: seq<Line>, nextId: Id): (Table, Id)
    decreases |lines|
  {
    if lines == [] then (rows, nextId)
    else
      var line := lines[0];
      var row := Merged(Lookup(rows, line.student), line, nextId);
      InsertAll(rows[line.student := row], lines[1..], if line.student in rows then nextId else nextId + 1)
  }

  /** `upsert_rollover_lines`: drop the lines of students no longer planned, then insert or
      refresh, leaving every override and its frozen target alone. */
  method UpsertRolloverLines(rows: Table, lines: seq<Line>, nextId: Id) returns (stored: Table, nextId': Id)
    ensures (stored, nextId') == InsertAll(rows - (rows.Keys - StudentsOf(lines)), lines, nextId)
  {
    if lines != [] {
      stored := rows - (rows.Keys - StudentsOf(lines));
    } else {
      stored := map[];
      assert rows - (rows.Keys - StudentsOf(lines)) == map[];
    }
    nextId' := nextId;
    ghost var start := stored;
    for i := 0 to |lines|
      invariant InsertAll(stored, lines[i..], nextId') == InsertAll(start, lines, nextId)
    {
      var line := lines[i];
      assert lines[i..][0] == line && lines[i..][1..] == lines[i + 1..];
      var row := Merged(Lookup(stored, line.student), line, nextId');
      if line.student !in stored {
        nextId' := nextId' + 1;
      }
      stored := stored[line.student := row];
    }
  }

  /** With one line per student the upsert is a pointwise merge. */
  lemma {:induction false} InsertAllPointwise(rows: Table, lines: seq<Line>, nextId: Id)
    requires forall i, j :: 0 <= i < j < |lines| ==> lines[i].student != lines[j].student
    ensures var t := InsertAll(rows, lines, nextId).0;
      && t.Keys == rows.Keys + StudentsOf(lines)
      && (forall s :: s in rows && s !in StudentsOf(lines) ==> t[s] == rows[s])
      && (forall i :: 0 <= i < |lines| ==>
            t[lines[i].student] == Merged(Lookup(rows, lines[i].student), lines[i], t[lines[i].student].id))
    decreases |lines|
  {
    if lines != [] {
      var line, rest := lines[0], lines[1..];
      var rows1 := rows[line.student := Merged(Lookup(rows, line.student), line, nextId)];
      var next := if line.student in rows then nextId else nextId + 1;
      InsertAllPointwise(rows1, rest, next);
      assert forall i :: 0 <= i < |rest| ==> rest[i] == lines[i + 1];
      assert StudentsOf(lines) == {line.student} + StudentsOf(rest);
      var t := InsertAll(rows1, rest, next).0;
      forall i | 0 <= i < |lines|
        ensures t[lines[i].student] == Merged(Lookup(rows, lines[i].student), lines[i], t[lines[i].student].id)
      {
        if i > 0 {
          assert lines[i] == rest[i - 1];
        }
      }
    }
  }

  /** `_recompute_rollover_lines` as a whole. */
  function Recomputed(facts: seq<Fact>, rows: Table, nextId: Id): (Table, Id) {
    var lines := Plan(facts, rows);
    InsertAll(rows - (rows.Keys - StudentsOf(lines)), lines, nextId)
  }

  /** The whole recomputation, row by row: exactly one row per fact, built from the plan and
      the row that was there. */
  lemma RecomputedRows(facts: seq<Fact>, rows: Table, nextId: Id)
    requires DistinctStudents(facts)
    ensures var t := Recomputed(facts, rows, nextId).0;
      && t.Keys == (set i | 0 <= i < |facts| :: facts[i].student)
      && forall i :: 0 <= i < |facts| ==>
           t[facts[i].student] == Merged(Lookup(rows, facts[i].student), PlannedLine(facts, rows, i),
                                         t[facts[i].student].id)
  {
    var lines := Plan(facts, rows);
    assert forall i :: 0 <= i < |facts| ==> lines[i].student == facts[i].student;
    var kept := rows - (rows.Keys - StudentsOf(lines));
    InsertAllPointwise(kept, lines, nextId);
    var t := InsertAll(kept, lines, nextId).0;
    forall i | 0 <= i < |facts|
      ensures facts[i].student in t
      ensures t[facts[i].student] == Merged(Lookup(rows, facts[i].student), PlannedLine(facts, rows, i),
                                            t[facts[i].student].id)
    {
      assert lines[i].student in StudentsOf(lines);
      assert Lookup(kept, facts[i].student) == Lookup(rows, facts[i].student);
    }
    assert t.Keys == StudentsOf(lines);
    assert StudentsOf(lines) == (set i | 0 <= i < |facts| :: facts[i].student);
  }

  /** Recomputing never touches an override or the target frozen with it. */
  lemma OverridesSurvive(facts: seq<Fact>, rows: Table, nextId: Id, student: Id)
    requires DistinctStudents(facts)
    ensures var t := Recomputed(facts, rows, nextId).0;
      && (student in t ==> OverrideOf(t, student) == OverrideOf(rows, student))
      && (student in t && OverrideOf(rows, student).Some? ==>
            t[student].target == rows[student].target && t[student].id == rows[student].id)
  {
    RecomputedRows(facts, rows, nextId);
    var t := Recomputed(facts, rows, nextId).0;
    if student in t {
      var i :| 0 <= i < |facts| && facts[i].student == student;
    }
  }

  /** A stored row is flagged over capacity exactly when its effective action is to promote and
      more students join its effective target than that class will hold; any other code is the
      one classification gave. */
  lemma CodesAreExact(facts: seq<Fact>, rows: Table, nextId: Id, i: nat)
    requires DistinctStudents(facts) && i < |facts|
    ensures var t := Recomputed(facts, rows, nextId).0; facts[i].student in t
    ensures var row := Recomputed(facts, rows, nextId).0[facts[i].student];
      && (row.code == Some(OverCapacity) <==>
            row.override.GetOr(row.proposed).Promote? &&
            |Joiners(facts, rows, |facts|, row.target)|
              > SourceCapacity(facts, rows, |facts|, row.target).GetOr(DEFAULT_CAPACITY))
      && (row.code != Some(OverCapacity) ==> row.code == Proposal(facts[i]).1)
      && row.proposed == Proposal(facts[i]).0
  {
    RecomputedRows(facts, rows, nextId);
    HeadcountExact(facts, rows, |facts|, EffectiveTarget(rows, facts[i]));
  }

  /** The class clones forward: the next level exists, the class is active and has a label. */
  predicate Clonable(fact: Fact) {
    fact.toLevel.Some? && fact.active && fact.section.Some? && fact.section.value != ""
  }

  /** What a stored row says, in terms of its student's fact alone: without a next level the
      proposal is to graduate, a class that clones forward promotes to the same section one level
      up, anybody else holds; nobody is ever proposed for withdrawal. An override keeps its
      target, a line without one gets the proposal's. */
  lemma RowFollowsFact(facts: seq<Fact>, rows: Table, nextId: Id, i: nat)
    requires DistinctStudents(facts) && i < |facts|
    ensures facts[i].student in Recomputed(facts, rows, nextId).0
    ensures var f, row := facts[i], Recomputed(facts, rows, nextId).0[facts[i].student];
      && (row.proposed.Graduate? <==> f.toLevel.None?)
      && (row.proposed.Promote? <==> Clonable(f))
      && (row.proposed.Hold? <==> f.toLevel.Some? && !Clonable(f))
      && !row.proposed.Withdraw?
      && (row.code != Some(OverCapacity) ==>
            row.code == if f.toLevel.None? then Some(NoNextLevel) else if Clonable(f) then None else Some(NoPlacement))
      && row.fromClass == Some(f.fromClass)
      && (if f.student in rows
          then
            && row.override == rows[f.student].override && row.id == rows[f.student].id
            && row.toClass == rows[f.student].toClass && row.applied == rows[f.student].applied
          else row.override.None? && row.toClass.None? && !row.applied)
      && row.target ==
           if row.override.Some? then rows[f.student].target
           else if Clonable(f) then Target(f.toLevel, f.section)
           else Target(None, None)
  {
    RecomputedRows(facts, rows, nextId);
    OverridesSurvive(facts, rows, nextId, facts[i].student);
  }

  /** The students whose rows lead to the class `key`: promoted, by override or else by proposal. */
  function Bound(t: Table, key: Target): set<Id> {
    set x | x in t && (t[x].override == Some(Promote) || (t[x].override.None? && t[x].proposed.Promote?))
            && t[x].target == key
  }

  /** The capacity the class will have: that of the first fact among its students whose own
      proposal is to promote, 0 or none counting as 25; 25 if there is no such fact. */
  ghost predicate WillHold(facts: seq<Fact>, t: Table, key: Target, capacity: int) {
    || (exists i :: FirstSource(facts, t, key, i)
          && capacity ==
               if facts[i].capacity.None? || facts[i].capacity.value == 0 then 25 else facts[i].capacity.value)
    || (capacity == 25 && forall i :: 0 <= i < |facts| ==> !IsSource(facts, t, key, i))
  }

  predicate IsSource(facts: seq<Fact>, t: Table, key: Target, i: int) {
    0 <= i < |facts| && facts[i].student in Bound(t, key) && t[facts[i].student].proposed.Promote?
  }

  predicate FirstSource(facts: seq<Fact>, t: Table, key: Target, i: int) {
    IsSource(facts, t, key, i) && forall j :: 0 <= j < i ==> !IsSource(facts, t, key, j)
  }

  lemma BoundAreJoiners(facts: seq<Fact>, rows: Table, nextId: Id, key: Target, i: nat)
    requires DistinctStudents(facts) && i < |facts|
    ensures var t := Recomputed(facts, rows, nextId).0;
      && (facts[i].student in Bound(t, key) <==> Joins(rows, facts[i], key))
      && (IsSource(facts, t, key, i) <==> Joins(rows, facts[i], key) && Classify(facts[i]).proposed.Promote?)
  {
    RowFollowsFact(facts, rows, nextId, i);
  }

  function Students(facts: seq<Fact>, js: set<nat>): set<Id>
    requires forall j :: j in js ==> j < |facts|
  {
    set j | j in js :: facts[j].student
  }

  lemma {:induction false} OneStudentEach(facts: seq<Fact>, js: set<nat>)
    requires DistinctStudents(facts) && forall j :: j in js ==> j < |facts|
    ensures |Students(facts, js)| == |js|
    decreases |js|
  {
    if |js| > 0 {
      var j :| j in js;
      var rest := js - {j};
      OneStudentEach(facts, rest);
      assert Students(facts, js) == Students(facts, rest) + {facts[j].student};
      assert facts[j].student !in Students(facts, rest);
    }
  }

  lemma BoundIsJoining(facts: seq<Fact>, rows: Table, nextId: Id, key: Target)
    requires DistinctStudents(facts)
    ensures Bound(Recomputed(facts, rows, nextId).0, key) == Students(facts, Joiners(facts, rows, |facts|, key))
  {
    var t := Recomputed(facts, rows, nextId).0;
    RecomputedRows(facts, rows, nextId);
    forall x ensures x in Bound(t, key) <==> x in Students(facts, Joiners(facts, rows, |facts|, key)) {
      if i :| 0 <= i < |facts| && facts[i].student == x {
        BoundAreJoiners(facts, rows, nextId, key, i);
        assert i in Joiners(facts, rows, |facts|, key) <==> Joins(rows, facts[i], key);
      }
    }
  }

  lemma CapacityByRows(facts: seq<Fact>, rows: Table, nextId: Id, key: Target)
    requires DistinctStudents(facts)
    ensures WillHold(facts, Recomputed(facts, rows, nextId).0, key,
                     SourceCapacity(facts, rows, |facts|, key).GetOr(DEFAULT_CAPACITY))
  {
    var t := Recomputed(facts, rows, nextId).0;
    forall i | 0 <= i < |facts|
      ensures IsSource(facts, t, key, i) <==> Joins(rows, facts[i], key) && Classify(facts[i]).proposed.Promote?
    {
      BoundAreJoiners(facts, rows, nextId, key, i);
    }
    CapacityIsOfFirst(facts, rows, |facts|, key);
    var c := SourceCapacity(facts, rows, |facts|, key);
    if c.Some? {
      var i :| 0 <= i < |facts| && Joins(rows, facts[i], key) && Classify(facts[i]).proposed.Promote?
               && c == Some(CapacityOr(facts[i].capacity))
               && forall j :: 0 <= j < i ==> !(Joins(rows, facts[j], key) && Classify(facts[j]).proposed.Promote?);
      assert FirstSource(facts, t, key, i);
    }
  }

  /** In terms of the stored rows alone: a row is flagged over capacity if and only if it leads to
      a class for which more rows are bound than it will hold. */
  lemma OverCapacityByRows(facts: seq<Fact>, rows: Table, nextId: Id, x: Id) returns (capacity: int)
    requires DistinctStudents(facts) && x in Recomputed(facts, rows, nextId).0
    ensures var t := Recomputed(facts, rows, nextId).0;
      && WillHold(facts, t, t[x].target, capacity)
      && (t[x].code == Some(OverCapacity) <==> x in Bound(t, t[x].target) && |Bound(t, t[x].target)| > capacity)
  {
    var t := Recomputed(facts, rows, nextId).0;
    RecomputedRows(facts, rows, nextId);
    var key := t[x].target;
    BoundIsJoining(facts, rows, nextId, key);
    OneStudentEach(facts, Joiners(facts, rows, |facts|, key));
    CapacityByRows(facts, rows, nextId, key);
    capacity := SourceCapacity(facts, rows, |facts|, key).GetOr(DEFAULT_CAPACITY);
    var i :| 0 <= i < |facts| && facts[i].student == x;
    CodesAreExact(facts, rows, nextId, i);
  }

  /** The plan reads nothing of the stored rows but their overrides and frozen targets. */
  lemma PlanReadsOverridesOnly(facts: seq<Fact>, rows: Table, rows': Table)
    requires forall i :: 0 <= i < |facts| ==>
      && OverrideOf(rows, facts[i].student) == OverrideOf(rows', facts[i].student)
      && (OverrideOf(rows, facts[i].student).Some? ==> rows[facts[i].student].target == rows'[facts[i].student].target)
    ensures Plan(facts, rows) == Plan(facts, rows')
  {
    forall n, key | 0 <= n <= |facts|
      ensures Sharers(facts, rows, n, key) == Sharers(facts, rows', n, key)
      ensures SourceCapacity(facts, rows, n, key) == SourceCapacity(facts, rows', n, key)
    {
      SameGroups(facts, rows, rows', n, key);
    }
  }

  lemma {:induction false} SameGroups(facts: seq<Fact>, rows: Table, rows': Table, n: nat, key: Target)
    requires n <= |facts|
    requires forall i :: 0 <= i < |facts| ==>
      && OverrideOf(rows, facts[i].student) == OverrideOf(rows', facts[i].student)
      && (OverrideOf(rows, facts[i].student).Some? ==> rows[facts[i].student].target == rows'[facts[i].student].target)
    ensures Sharers(facts, rows, n, key) == Sharers(facts, rows', n, key)
    ensures SourceCapacity(facts, rows, n, key) == SourceCapacity(facts, rows', n, key)
  {
    if n > 0 {
      SameGroups(facts, rows, rows', n - 1, key);
      assert Joins(rows, facts[n - 1], key) == Joins(rows', facts[n - 1], key);
    }
  }

  /** Recomputing twice with the same facts is recomputing once. */
  lemma RecomputeIsIdempotent(facts: seq<Fact>, rows: Table, nextId: Id, nextId': Id)
    requires DistinctStudents(facts)
    ensures var t := Recomputed(facts, rows, nextId).0; Recomputed(facts, t, nextId').0 == t
  {
    var t := Recomputed(facts, rows, nextId).0;
    var u := Recomputed(facts, t, nextId').0;
    RecomputedRows(facts, rows, nextId);
    RecomputedRows(facts, t, nextId');
    PlanIsTheSameAgain(facts, rows, nextId);
    forall s | s in t
      ensures u[s] == t[s]
    {
      var i :| 0 <= i < |facts| && facts[i].student == s;
      SamePlannedLine(facts, rows, t, i);
    }
  }

  lemma PlanIsTheSameAgain(facts: seq<Fact>, rows: Table, nextId: Id)
    requires DistinctStudents(facts)
    ensures Plan(facts, rows) == Plan(facts, Recomputed(facts, rows, nextId).0)
  {
    var t := Recomputed(facts, rows, nextId).0;
    RecomputedRows(facts, rows, nextId);
    forall i | 0 <= i < |facts|
      ensures OverrideOf(rows, facts[i].student) == OverrideOf(t, facts[i].student)
      ensures OverrideOf(rows, facts[i].student).Some? ==> rows[facts[i].student].target == t[facts[i].student].target
    {
      assert facts[i].student in t;
      OverridesSurvive(facts, rows, nextId, facts[i].student);
    }
    PlanReadsOverridesOnly(facts, rows, t);
  }

  lemma SamePlannedLine(facts: seq<Fact>, rows: Table, rows': Table, i: nat)
    requires i < |facts| && Plan(facts, rows) == Plan(facts, rows')
    ensures PlannedLine(facts, rows, i) == PlannedLine(facts, rows', i)
  {
    assert Plan(facts, rows)[i] == PlannedLine(facts, rows, i);
    assert Plan(facts, rows')[i] == PlannedLine(facts, rows', i);
  }
}
