/** The life of one rollover before commit: generate, override, preview, and the deletion of a
    level in between (`app/domains/tenant/service.py`, `tenant_repository.py`). */
module RolloverRuns {
  import opened Wrappers
  import opened RolloverPlan

  /** `year_rollover.state`; a commit passes through `committing` inside its own transaction. */
  datatype Phase = Draft | Previewed | Committed

  /** `academic_years.status`. */
  datatype YearStatus = Planned | Active | Closed

  datatype State = State(rows: Table, phase: Phase, levels: set<Id>, nextId: Id)

  datatype Request =
    | Generate(facts: seq<Fact>)
    | Override(student: Id, action: Option<Action>, level: Option<int>, section: Option<string>)
    | Preview(facts: seq<Fact>)
    | DeleteLevel(gone: Id)

  datatype Error = LineNotFound | UnresolvedTarget | UnknownLevel | AlreadyCommitted | Unplaced(count: nat)

  function Effective(row: Row): Action { row.override.GetOr(row.proposed) }

  /** The facts a query can return: one per student, naming existing levels. */
  predicate FactsOk(s: State, facts: seq<Fact>) {
    && DistinctStudents(facts)
    && forall i :: 0 <= i < |facts| && facts[i].toLevel.Some? ==> facts[i].toLevel.value in s.levels
  }

  predicate Allowed(s: State, r: Request) {
    match r
    case Generate(facts) => FactsOk(s, facts)
    case Preview(facts) => FactsOk(s, facts)
    case _ => true
  }

  function Recompute(s: State, facts: seq<Fact>): State {
    var (rows, nextId) := Recomputed(facts, s.rows, s.nextId);
    s.(rows := rows, nextId := nextId)
  }

  /** Python's truth of `to_level_id`: absent and zero both mean "keep the stored level". */
  predicate Given(level: Option<int>) { level.Some? && level.value != 0 }

  function OverrideError(s: State, r: Request): Option<Error>
    requires r.Override?
  {
    if r.student !in s.rows then Some(LineNotFound)
    else
      var row := s.rows[r.student];
      var levelResolved := if r.level.Some? then r.level.value != 0 else row.target.level.Some?;
      var section := if r.section.Some? then r.section else row.target.section;
      if r.action == Some(Promote) && !(levelResolved && Named(section)) then Some(UnresolvedTarget)
      else if Given(r.level) && (r.level.value < 0 || r.level.value !in s.levels) then Some(UnknownLevel)
      else None
  }

  function OverriddenRow(row: Row, r: Request): Row
    requires r.Override? && (Given(r.level) ==> r.level.value > 0)
  {
    row.(override := r.action,
         target := Target(if Given(r.level) then Some(r.level.value) else row.target.level,
                          if r.section.Some? then r.section else row.target.section))
  }

  predicate Held(s: State, student: Id) { student in s.rows && Effective(s.rows[student]).Hold? }

  /** `ON DELETE SET NULL` on the lines that pointed at the level. */
  function Orphan(rows: Table, level: Id): (t: Table)
    ensures t.Keys == rows.Keys
  {
    map s | s in rows ::
      if rows[s].target.level == Some(level) then rows[s].(target := rows[s].target.(level := None)) else rows[s]
  }

  function Next(s: State, r: Request): (State, Option<Error>) {
    match r
    case Generate(facts) => (Recompute(s, facts), None)
    case Override(student, _, _, _) =>
      var e := OverrideError(s, r);
      if e.Some? then (s, e) else (s.(rows := s.rows[student := OverriddenRow(s.rows[student], r)]), None)
    case Preview(facts) =>
      if s.phase.Committed? then (s, Some(AlreadyCommitted))
      else
        var t := Recompute(s, facts);
        var held := set student | student in t.rows && Effective(t.rows[student]).Hold?;
        if held != {} then (t, Some(Unplaced(|held|))) else (t.(phase := Previewed), None)
    case DeleteLevel(level) => (s.(rows := Orphan(s.rows, level), levels := s.levels - {level}), None)
  }

  predicate Run(s: State, requests: seq<Request>)
    decreases |requests|
  {
    requests == [] || (Allowed(s, requests[0]) && Run(Next(s, requests[0]).0, requests[1..]))
  }

  function After(s: State, requests: seq<Request>): State
    requires Run(s, requests)
    decreases |requests|
  {
    if requests == [] then s else After(Next(s, requests[0]).0, requests[1..])
  }

  // ------------------------------------------------------------------
  // The preview gate
  // ------------------------------------------------------------------

  /** The student's fate is settled: leaving, or promoted to a known class. */
  predicate Placed(row: Row) {
    match Effective(row)
    case Promote => row.target.level.Some? && Named(row.target.section)
    case Graduate => true
    case Withdraw => true
    case Hold => false
  }

  /** Every promotion an administrator chose named its class when it was chosen; only the
      deletion of the chosen level can have unresolved it since. */
  ghost predicate Inv(s: State) {
    && (forall x :: x in s.rows && s.rows[x].override == Some(Promote) ==> Named(s.rows[x].target.section))
    && (forall x :: x in s.rows && s.rows[x].target.level.Some? ==> s.rows[x].target.level.value in s.levels)
  }

  /** No administrator's promotion has lost its level. */
  ghost predicate NoneOrphaned(rows: Table) {
    forall x :: x in rows && rows[x].override == Some(Promote) ==> rows[x].target.level.Some?
  }

  lemma RecomputeKeepsInv(s: State, facts: seq<Fact>)
    requires Inv(s) && FactsOk(s, facts)
    ensures Inv(Recompute(s, facts))
  {
    RecomputedRows(facts, s.rows, s.nextId);
    var t := Recompute(s, facts);
    forall x | x in t.rows
      ensures t.rows[x].override == Some(Promote) ==> Named(t.rows[x].target.section)
      ensures t.rows[x].target.level.Some? ==> t.rows[x].target.level.value in t.levels
    {
      var i :| 0 <= i < |facts| && facts[i].student == x;
    }
  }

  lemma StepKeepsInv(s: State, r: Request)
    requires Inv(s) && Allowed(s, r)
    ensures Inv(Next(s, r).0)
  {
    match r {
      case Generate(facts) => RecomputeKeepsInv(s, facts);
      case Preview(facts) => RecomputeKeepsInv(s, facts);
      case Override(_, _, _, _) =>
      case DeleteLevel(_) =>
    }
  }

  lemma {:induction false} RunKeepsInv(s: State, requests: seq<Request>)
    requires Inv(s) && Run(s, requests)
    ensures Inv(After(s, requests))
    decreases |requests|
  {
    if requests != [] {
      StepKeepsInv(s, requests[0]);
      RunKeepsInv(Next(s, requests[0]).0, requests[1..]);
    }
  }

  /** Everything that is proposed for promotion and not overridden has a freshly resolved class. */
  lemma RecomputedProposalsResolve(s: State, facts: seq<Fact>, x: Id)
    requires FactsOk(s, facts) && x in Recompute(s, facts).rows
    ensures var row := Recompute(s, facts).rows[x];
      row.override.None? && row.proposed.Promote? ==> row.target.level.Some? && Named(row.target.section)
  {
    RecomputedRows(facts, s.rows, s.nextId);
    var i :| 0 <= i < |facts| && facts[i].student == x;
  }

  /** Before a preview: no student of the facts has a stored promotion without a level. */
  predicate LevelsKnown(rows: Table, facts: seq<Fact>) {
    forall i :: 0 <= i < |facts| && facts[i].student in rows && rows[facts[i].student].override == Some(Promote) ==>
      rows[facts[i].student].target.level.Some?
  }

  lemma RecomputeKeepsLevels(s: State, facts: seq<Fact>)
    requires DistinctStudents(facts)
    ensures NoneOrphaned(Recompute(s, facts).rows) <==> LevelsKnown(s.rows, facts)
  {
    RecomputedRows(facts, s.rows, s.nextId);
    var t := Recompute(s, facts);
    forall i | 0 <= i < |facts|
      ensures var x := facts[i].student;
        x in t.rows && (t.rows[x].override == Some(Promote) && t.rows[x].target.level.None? <==>
                        x in s.rows && s.rows[x].override == Some(Promote) && s.rows[x].target.level.None?)
    {
      OverridesSurvive(facts, s.rows, s.nextId, facts[i].student);
    }
    forall x | x in t.rows ensures exists i :: 0 <= i < |facts| && facts[i].student == x {
    }
  }

  /** A successful preview covers exactly the students of the facts, each with one line, and
      settles every one of them if and only if, before the call, none of them had a stored
      promotion without a level.  When it fails, the lines it names are the ones still on hold. */
  lemma PreviewGate(s: State, facts: seq<Fact>)
    requires Inv(s) && FactsOk(s, facts)
    ensures var (t, error) := Next(s, Preview(facts));
      && (error.None? ==> t.rows.Keys == (set i | 0 <= i < |facts| :: facts[i].student))
      && (error.None? ==> ((forall x :: x in t.rows ==> Placed(t.rows[x])) <==> LevelsKnown(s.rows, facts)))
      && (error.None? <==> !s.phase.Committed? && forall x :: !Held(Recompute(s, facts), x))
      && (error.None? ==> t.phase.Previewed?)
      && (error.Some? ==> t.phase == s.phase)
  {
    var t := Recompute(s, facts);
    RecomputedRows(facts, s.rows, s.nextId);
    RecomputeKeepsInv(s, facts);
    RecomputeKeepsLevels(s, facts);
    var held := set student | student in t.rows && Effective(t.rows[student]).Hold?;
    forall x | x in t.rows && !Held(t, x)
      ensures Placed(t.rows[x]) <==> (t.rows[x].override == Some(Promote) ==> t.rows[x].target.level.Some?)
    {
      RecomputedProposalsResolve(s, facts, x);
    }
    if held == {} {
      forall x ensures !Held(t, x) { assert x !in held; }
    } else {
      var x :| x in held;
      assert Held(t, x);
    }
  }

  /** What an override does, column by column. A promotion needs a level and a section, given now
      or stored; a level given must exist. A level of 0 counts as missing for the first and as not
      given for the rest. */
  lemma OverrideIsExact(s: State, student: Id, action: Option<Action>, level: Option<int>, section: Option<string>)
    ensures var (t, error) := Next(s, Override(student, action, level, section));
      && (error == Some(LineNotFound) <==> student !in s.rows)
      && (error.Some? ==> t == s)
      && (student in s.rows ==>
            var row, given := s.rows[student], level.Some? && level.value != 0;
            var hasLevel := given || (level.None? && row.target.level.Some?);
            var named := if section.Some? then section else row.target.section;
            var hasSection := named.Some? && named.value != "";
            && (error == Some(UnresolvedTarget) <==> action == Some(Promote) && !(hasLevel && hasSection))
            && (error == Some(UnknownLevel) <==>
                  error != Some(UnresolvedTarget) && given && !(level.value > 0 && level.value in s.levels))
            && (error.None? ==>
                  && student in t.rows && t.rows - {student} == s.rows - {student}
                  && t.phase == s.phase && t.levels == s.levels
                  && var after := t.rows[student];
                     && after.override == action
                     && after.target.level == (if given then Some(level.value as Id) else row.target.level)
                     && after.target.section == (if section.Some? then section else row.target.section)
                     && after.proposed == row.proposed && after.code == row.code && after.fromClass == row.fromClass
                     && after.toClass == row.toClass && after.applied == row.applied && after.id == row.id))
  {
  }

  /** A level some administrator's promotion leads to is deleted. */
  predicate DeletesAChosenLevel(s: State, r: Request) {
    r.DeleteLevel? &&
    exists x :: x in s.rows && s.rows[x].override == Some(Promote) && s.rows[x].target.level == Some(r.gone)
  }

  /** A step takes the level from a promotion an administrator chose if and only if it deletes
      the level one of them leads to. */
  lemma WhenLevelsAreLost(s: State, r: Request)
    requires Inv(s) && Allowed(s, r) && NoneOrphaned(s.rows)
    ensures !NoneOrphaned(Next(s, r).0.rows) <==> DeletesAChosenLevel(s, r)
  {
    match r
    case Generate(facts) => RecomputeKeepsLevels(s, facts);
    case Preview(facts) => RecomputeKeepsLevels(s, facts);
    case Override(_, _, _, _) =>
    case DeleteLevel(level) => DeletionOrphans(s.rows, level);
  }

  lemma DeletionOrphans(rows: Table, level: Id)
    requires NoneOrphaned(rows)
    ensures !NoneOrphaned(Orphan(rows, level)) <==>
            exists x :: x in rows && rows[x].override == Some(Promote) && rows[x].target.level == Some(level)
  {
    var t := Orphan(rows, level);
    if x :| x in rows && rows[x].override == Some(Promote) && rows[x].target.level == Some(level) {
      assert x in t && t[x].override == Some(Promote) && t[x].target.level.None?;
    } else {
      forall x | x in t && t[x].override == Some(Promote) ensures t[x].target.level.Some? {
        assert x in rows;
      }
    }
  }

  /** No request of the run deletes a level that is then the target of an administrator's
      promotion; other levels may go. */
  predicate KeepsChosenLevels(s: State, requests: seq<Request>)
    requires Run(s, requests)
    decreases |requests|
  {
    requests == [] || (!DeletesAChosenLevel(s, requests[0]) && KeepsChosenLevels(Next(s, requests[0]).0, requests[1..]))
  }

  lemma {:induction false} OrphansComeFromDeletion(s: State, requests: seq<Request>)
    requires Inv(s) && Run(s, requests) && NoneOrphaned(s.rows) && KeepsChosenLevels(s, requests)
    ensures NoneOrphaned(After(s, requests).rows)
    decreases |requests|
  {
    if requests != [] {
      StepKeepsInv(s, requests[0]);
      WhenLevelsAreLost(s, requests[0]);
      OrphansComeFromDeletion(Next(s, requests[0]).0, requests[1..]);
    }
  }

  /** Over every run of generate, override, preview and level deletions from an empty plan, as long
      as no level is deleted while an administrator's promotion leads to it: whenever a preview
      succeeds, every student of the facts graduates, withdraws, or is promoted to a class whose
      level and section are both resolved. */
  lemma PreviewSettlesEveryone(s: State, requests: seq<Request>, facts: seq<Fact>)
    requires s.rows == map[] && Run(s, requests) && KeepsChosenLevels(s, requests)
    requires FactsOk(After(s, requests), facts)
    ensures var (t, error) := Next(After(s, requests), Preview(facts));
      error.None? ==>
        && t.rows.Keys == (set i | 0 <= i < |facts| :: facts[i].student)
        && forall x :: x in t.rows ==> Placed(t.rows[x])
  {
    RunKeepsInv(s, requests);
    OrphansComeFromDeletion(s, requests);
    PreviewGate(After(s, requests), facts);
  }

  /** With level deletion in the run the guarantee fails: one student, held, resolved by hand
      to level 2, which is then deleted, previews successfully without a class to go to. */
  lemma DeletedLevelSlipsThrough()
    ensures var f := Fact(1, 1, None, true, None, Some(3));
      var s := State(map[], Draft, {2, 3}, 1);
      var requests := [Generate([f]), Override(1, Some(Promote), Some(2), Some("A")), DeleteLevel(2)];
      && Run(s, requests)
      && var (t, error) := Next(After(s, requests), Preview([f]));
         error.None? && 1 in t.rows && !Placed(t.rows[1])
  {
    var f := Fact(1, 1, None, true, None, Some(3));
    var s := State(map[], Draft, {2, 3}, 1);
    var s1 := Next(s, Generate([f])).0;
    RecomputedRows([f], s.rows, s.nextId);
    assert [f][0].student in s1.rows;
    var o := Override(1, Some(Promote), Some(2), Some("A"));
    var s2 := Next(s1, o).0;
    assert OverrideError(s1, o).None?;
    var s3 := Next(s2, DeleteLevel(2)).0;
    assert s3.rows[1].override == Some(Promote) && s3.rows[1].target == Target(None, Some("A"));
    var requests := [Generate([f]), o, DeleteLevel(2)];
    assert requests[1..] == [o, DeleteLevel(2)];
    assert requests[1..][1..] == [DeleteLevel(2)];
    assert requests[1..][1..][1..] == [];
    assert Run(s3, []);
    assert Run(s2, [DeleteLevel(2)]) && After(s2, [DeleteLevel(2)]) == s3;
    assert Run(s1, requests[1..]) && After(s1, requests[1..]) == s3;
    assert Run(s, requests) && After(s, requests) == s3;
    RecomputedRows([f], s3.rows, s3.nextId);
    OverridesSurvive([f], s3.rows, s3.nextId, 1);
    var t := Recompute(s3, [f]);
    assert t.rows.Keys == {1};
    assert Effective(t.rows[1]) == Promote;
    assert (set x | x in t.rows && Effective(t.rows[x]).Hold?) == {};
  }
}

/** The service methods over the stored lines. */
module RolloverService {
  import opened Wrappers
  import opened RolloverPlan
  import opened RolloverRuns

  class Rollover {
    var rows: Table
    var phase: Phase
    var levels: set<Id>
    var nextId: Id

    ghost function Abs(): State
      reads this
    {
      State(rows, phase, levels, nextId)
    }

    /** `_recompute_rollover_lines`. */
    method RecomputeRolloverLines(facts: seq<Fact>)
      modifies this`rows, this`nextId
      ensures Abs() == Recompute(old(Abs()), facts)
    {
      var lines := RecomputeLines(facts, rows);
      rows, nextId := UpsertRolloverLines(rows, lines, nextId);
    }

    /** `override_rollover_line` and `set_rollover_line_override`. */
    method OverrideRolloverLine(student: Id, action: Option<Action>, level: Option<int>, section: Option<string>)
      returns (error: Option<Error>)
      modifies this`rows
      ensures (Abs(), error) == Next(old(Abs()), Override(student, action, level, section))
    {
      if student !in rows {
        return Some(LineNotFound);
      }
      var row := rows[student];
      var levelResolved := if level.Some? then level.value != 0 else row.target.level.Some?;
      var effectiveSection := if section.Some? then section else row.target.section;
      if action == Some(Promote) && !(levelResolved && Named(effectiveSection)) {
        return Some(UnresolvedTarget);
      }
      var stored := row.target.level;
      if level.Some? && level.value != 0 {
        if level.value < 0 || level.value !in levels {
          return Some(UnknownLevel);
        }
        stored := Some(level.value);
      }
      rows := rows[student := row.(override := action, target := Target(stored, effectiveSection))];
      error := None;
    }

    /** `generate_rollover_plan`: only from the active year, only into a planned one.  An existing
        rollover between the two years is found again and recomputed, whatever its phase. */
    method GenerateRolloverPlan(fromYear: Option<YearStatus>, toYear: Option<YearStatus>, facts: seq<Fact>)
      returns (ok: bool)
      modifies this`rows, this`nextId
      ensures ok <==> fromYear == Some(Active) && toYear == Some(Planned)
      ensures Abs() == if ok then Next(old(Abs()), Generate(facts)).0 else old(Abs())
    {
      if fromYear.None? || toYear.None? || fromYear.value != Active || toYear.value != Planned {
        return false;
      }
      RecomputeRolloverLines(facts);
      ok := true;
    }

    /** `preview_rollover`. */
    method PreviewRollover(facts: seq<Fact>) returns (error: Option<Error>)
      modifies this`rows, this`nextId, this`phase
      ensures (Abs(), error) == Next(old(Abs()), Preview(facts))
    {
      if phase.Committed? {
        return Some(AlreadyCommitted);
      }
      RecomputeRolloverLines(facts);
      var blocking := set student | student in rows && Effective(rows[student]).Hold?;
      if blocking != {} {
        return Some(Unplaced(|blocking|));
      }
      phase := Previewed;
      error := None;
    }
  }
}
