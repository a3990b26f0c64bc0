/** Committing a previewed rollover: `commit_year_rollover` of
    `app/domains/tenant/tenant_repository.py`, one transaction. */
module RolloverCommit {
  import opened Wrappers
  import opened RolloverPlan
  import opened RolloverRuns

  datatype Standing = Enrolled | Graduated | Withdrawn
  datatype Student = Student(classId: Option<Id>, standing: Standing)
  datatype SchoolClass = SchoolClass(name: string, level: Id, capacity: Option<int>, year: Id,
                                     section: Option<string>)

  datatype CommitError = NotPreviewed | NoSuchLevel | NoTargetClass(student: Id) | TwoActiveYears

  datatype Summary = Summary(promoted: nat, graduated: nat, withdrawn: nat, held: nat)

  type Classes = map<Id, SchoolClass>
  type Students = map<Id, Student>

  // ------------------------------------------------------------------
  // Target classes
  // ------------------------------------------------------------------

  /** The f-string `{level name} - {section}`. */
  function TargetName(levelName: string, section: Option<string>): string {
    levelName + " - " + section.GetOr("None")
  }

  predicate EndsWith(s: string, end: string) { |end| <= |s| && s[|s| - |end|..] == end }

  /** The longer label is the shorter one behind a separator, or behind what a separator at the
      end of a level name leaves of one. */
  predicate Extends(short: string, longer: string) {
    longer == "- " + short || EndsWith(longer, " - " + short)
  }

  /** Some level names give these two sections the same class name. */
  ghost predicate MayCollide(o: Option<string>, o': Option<string>) {
    exists l, l' :: TargetName(l, o) == TargetName(l', o')
  }

  /** A section determines the level: within one section, names do not collide. */
  lemma SameSectionSameLevel(l: string, l': string, o: Option<string>)
    requires TargetName(l, o) == TargetName(l', o)
    ensures l == l'
  {
    var n := TargetName(l, o);
    assert |l| == |l'| && n[..|l|] == l && n[..|l'|] == l';
  }

  /** Equal names with a longer label on the right: the label there ends in the other, and the
      rest of it ends in what is needed for a separator. */
  lemma CollisionShifts(l: string, s: string, l': string, s': string)
    requires TargetName(l, Some(s)) == TargetName(l', Some(s')) && |s| < |s'|
    ensures Extends(s, s')
  {
    var n, d := TargetName(l, Some(s)), |s'| - |s|;
    NameParts(l, s);
    NameParts(l', s');
    TailOfTail(n, |l'| + 3, d);
    if d == 2 {
      assert s'[..2] == "- " by {
        assert s'[0] == n[|l| + 1] && s'[1] == n[|l| + 2];
      }
      assert s' == s'[..2] + s'[2..];
    } else if d > 2 {
      TailOfTail(n, |l'| + 3, d - 3);
      assert s'[d - 3..] == n[|l|..];
    }
  }

  /** Where the separator and the section of a class name are. */
  lemma NameParts(l: string, s: string)
    ensures var n := TargetName(l, Some(s));
      && |n| == |l| + 3 + |s| && n[|l| + 3..] == s && n[|l|..] == " - " + s
      && n[|l|] == ' ' && n[|l| + 1] == '-' && n[|l| + 2] == ' '
  {
    assert TargetName(l, Some(s)) == l + (" - " + s);
  }

  lemma TailOfTail(n: string, i: nat, d: nat)
    requires i + d <= |n|
    ensures n[i..][d..] == n[i + d..]
  {
  }

  /** And such labels do collide. */
  lemma ExtensionCollides(s: string, s': string) returns (l: string, l': string)
    requires Extends(s, s')
    ensures TargetName(l, Some(s)) == TargetName(l', Some(s'))
  {
    l' := "";
    if s' == "- " + s {
      l := " -";
      assert l + " - " + s == l' + " - " + s';
    } else {
      var head := s'[..|s'| - |s| - 3];
      l := " - " + head;
      assert s' == head + " - " + s;
      assert l + " - " + s == l' + " - " + s';
    }
  }

  lemma EqualLengthsDoNotCollide(l: string, s: string, l': string, s': string)
    requires TargetName(l, Some(s)) == TargetName(l', Some(s')) && |s| == |s'|
    ensures s == s'
  {
    var n := TargetName(l, Some(s));
    assert n[|l| + 3..] == s && n[|l'| + 3..] == s';
  }

  /** Two different sections collide under some pair of level names if and only if one label
      extends the other, or one is missing and the other is "None". */
  lemma WhenSectionsCollide(o: Option<string>, o': Option<string>)
    requires o != o'
    ensures var s, s' := o.GetOr("None"), o'.GetOr("None");
      MayCollide(o, o') <==> s == s' || Extends(s, s') || Extends(s', s)
  {
    var s, s' := o.GetOr("None"), o'.GetOr("None");
    assert forall l :: TargetName(l, o) == TargetName(l, Some(s)) && TargetName(l, o') == TargetName(l, Some(s'));
    if l, l' :| TargetName(l, o) == TargetName(l', o') {
      if |s| < |s'| {
        CollisionShifts(l, s, l', s');
      } else if |s'| < |s| {
        CollisionShifts(l', s', l, s);
      } else {
        EqualLengthsDoNotCollide(l, s, l', s');
      }
    }
    if s == s' {
      assert TargetName("", o) == TargetName("", o');
    } else if Extends(s, s') {
      var l, l' := ExtensionCollides(s, s');
      assert TargetName(l, o) == TargetName(l', o');
    } else if Extends(s', s) {
      var l', l := ExtensionCollides(s', s);
      assert TargetName(l, o) == TargetName(l', o');
    }
  }

  /** So as long as no label extends another, a class name determines level name and section. */
  lemma TargetNameInjective(l: string, s: string, l': string, s': string)
    requires !Extends(s, s') && !Extends(s', s) && TargetName(l, Some(s)) == TargetName(l', Some(s'))
    ensures l == l' && s == s'
  {
    if s != s' {
      assert MayCollide(Some(s), Some(s'));
      WhenSectionsCollide(Some(s), Some(s'));
    } else {
      SameSectionSameLevel(l, l', Some(s));
    }
  }

  /** An extended label holds a space, and a label derived from a class name never does: a
      collision takes a label an administrator typed. */
  lemma ExtendedLabelsHoldASpace(s: string, s': string)
    ensures Extends(s, s') ==> ' ' in s'
  {
    if s' == "- " + s {
      assert s'[1] == ' ';
    } else if EndsWith(s', " - " + s) {
      assert s'[|s'| - |" - " + s|..][0] == ' ';
    }
  }

  predicate Promoted(rows: Table, x: Id) { x in rows && Effective(rows[x]).Promote? }

  /** Some line bound for `key` still knows the class it comes from. */
  predicate HasSource(rows: Table, order: seq<Id>, key: Target) {
    exists x :: x in order && Promoted(rows, x) && rows[x].target == key && rows[x].fromClass.Some?
  }

  /** Every promotion among `order` can be given a class. */
  predicate Resolvable(rows: Table, order: seq<Id>) {
    forall x :: x in order && Promoted(rows, x) ==> rows[x].target.level.Some? && HasSource(rows, order, rows[x].target)
  }

  /** Foreign keys of the lines. */
  ghost predicate KeysExist(levels: map<Id, string>, classes: Classes, students: Students, rows: Table) {
    forall x :: x in rows ==>
      && x in students
      && (rows[x].target.level.Some? ==> rows[x].target.level.value in levels)
      && (rows[x].fromClass.Some? ==> rows[x].fromClass.value in classes)
  }

  /** `c` is the to-year class standing for `key`. */
  predicate Stands(levels: map<Id, string>, classes: Classes, toYear: Id, key: Target, c: Id) {
    && c in classes && classes[c].year == toYear
    && key.level.Some? && key.level.value in levels
    && classes[c].name == TargetName(levels[key.level.value], key.section)
  }

  /** The class is made for the target of one of its students: with its level, section and name,
      and the capacity of the class that student comes from. */
  predicate ClonedFrom(levels: map<Id, string>, rows: Table, order: seq<Id>, classes: Classes, made: SchoolClass) {
    exists x :: x in order && Promoted(rows, x) && ClonedFor(levels, rows[x], classes, made)
  }

  predicate ClonedFor(levels: map<Id, string>, row: Row, classes: Classes, made: SchoolClass) {
    && row.fromClass.Some? && row.fromClass.value in classes && made.capacity == classes[row.fromClass.value].capacity
    && row.target.level.Some? && row.target.level.value in levels && made.level == row.target.level.value
    && made.section == row.target.section
    && made.name == TargetName(levels[row.target.level.value], row.target.section)
  }

  /** The to-year class of this name, made if there is none yet. */
  method FindOrClone(classes: Classes, source: SchoolClass, name: string, key: Target, toYear: Id, nextId: Id)
    returns (c: Id, classes': Classes, nextId': Id)
    requires key.level.Some? && forall d :: d in classes ==> d < nextId
    ensures c in classes' && classes'[c].name == name && classes'[c].year == toYear
    ensures classes' == classes || (c !in classes && classes' == classes[c := classes'[c]]
      && classes'[c].capacity == source.capacity && classes'[c].level == key.level.value
      && classes'[c].section == key.section)
    ensures nextId <= nextId' && forall d :: d in classes' ==> d < nextId'
  {
    classes', nextId' := classes, nextId;
    if exists d :: d in classes && classes[d].name == name && classes[d].year == toYear {
      c :| c in classes && classes[c].name == name && classes[c].year == toYear;
    } else {
      c := nextId;
      nextId' := nextId + 1;
      classes' := classes[c := SchoolClass(name, key.level.value, source.capacity, toYear, key.section)];
    }
  }

  /** Exactly the targets with a source among `order` are resolved, each to a class standing for it. */
  ghost predicate Targets(levels: map<Id, string>, classes: Classes, toYear: Id, rows: Table, order: seq<Id>,
                          resolved: map<Target, Id>) {
    && (forall key :: key in resolved <==> HasSource(rows, order, key))
    && (forall key :: key in resolved ==> Stands(levels, classes, toYear, key, resolved[key]))
  }

  /** Classes were only added, each to the new year and with a source's capacity. */
  ghost predicate OnlyAdds(levels: map<Id, string>, classes: Classes, classes': Classes, rows: Table, order: seq<Id>,
                           toYear: Id) {
    && (forall c :: c in classes ==> c in classes' && classes'[c] == classes[c])
    && (forall c :: c in classes' && c !in classes ==>
          classes'[c].year == toYear && ClonedFrom(levels, rows, order, classes, classes'[c]))
  }

  lemma TargetResolved(levels: map<Id, string>, before: Classes, after: Classes, toYear: Id, rows: Table,
                       order: seq<Id>,
                       i: nat, resolved: map<Target, Id>, c: Id)
    requires i < |order| && Promoted(rows, order[i]) && rows[order[i]].fromClass.Some?
    requires Targets(levels, before, toYear, rows, order[..i], resolved)
    requires forall d :: d in before ==> d in after && after[d] == before[d]
    requires Stands(levels, after, toYear, rows[order[i]].target, c)
    ensures Targets(levels, after, toYear, rows, order[..i + 1], resolved[rows[order[i]].target := c])
  {
    SourcesGrow(rows, order, i);
  }

  lemma TargetUnchanged(levels: map<Id, string>, classes: Classes, toYear: Id, rows: Table, order: seq<Id>,
                        i: nat, resolved: map<Target, Id>)
    requires i < |order| && Targets(levels, classes, toYear, rows, order[..i], resolved)
    requires Promoted(rows, order[i]) && rows[order[i]].fromClass.Some? ==> rows[order[i]].target in resolved
    ensures Targets(levels, classes, toYear, rows, order[..i + 1], resolved)
  {
    SourcesGrow(rows, order, i);
  }

  /** Step 1: a to-year class for every target that has a source. */
  method EnsureClasses(levels: map<Id, string>, classes: Classes, rows: Table, order: seq<Id>, toYear: Id, nextId: Id)
    returns (ok: bool, classes': Classes, resolved: map<Target, Id>, nextId': Id)
    requires (forall x :: x in order ==> x in rows) && (forall c :: c in classes ==> c < nextId)
    requires forall x :: x in rows && rows[x].target.level.Some? ==> rows[x].target.level.value in levels
    requires forall x :: x in rows && rows[x].fromClass.Some? ==> rows[x].fromClass.value in classes
    ensures ok <==> forall x :: x in order && Promoted(rows, x) && rows[x].fromClass.Some? ==>
      rows[x].target.level.Some?
    ensures ok ==> Targets(levels, classes', toYear, rows, order, resolved)
    ensures ok ==> OnlyAdds(levels, classes, classes', rows, order, toYear)
    ensures nextId <= nextId' && (forall c :: c in classes' ==> c < nextId')
  {
    classes', resolved, nextId' := classes, map[], nextId;
    for i := 0 to |order|
      invariant nextId <= nextId' && forall c :: c in classes' ==> c < nextId'
      invariant forall x :: x in order[..i] && Promoted(rows, x) && rows[x].fromClass.Some? ==>
        rows[x].target.level.Some?
      invariant Targets(levels, classes', toYear, rows, order[..i], resolved)
      invariant OnlyAdds(levels, classes, classes', rows, order, toYear)
    {
      var row := rows[order[i]];
      assert order[i] in order && order[..i + 1] == order[..i] + [order[i]];
      if Effective(row).Promote? && row.target !in resolved && row.fromClass.Some? {
        if row.target.level.None? {
          return false, classes, map[], nextId;
        }
        var source := classes[row.fromClass.value];
        var name := TargetName(levels[row.target.level.value], row.target.section);
        ghost var before := classes';
        var c: Id;
        c, classes', nextId' := FindOrClone(classes', source, name, row.target, toYear, nextId');
        assert c !in before ==> ClonedFor(levels, row, classes, classes'[c]);
        TargetResolved(levels, before, classes', toYear, rows, order, i, resolved, c);
        resolved := resolved[row.target := c];
      } else {
        TargetUnchanged(levels, classes', toYear, rows, order, i, resolved);
      }
    }
    assert order[..|order|] == order;
    ok := true;
  }

  lemma SourcesGrow(rows: Table, order: seq<Id>, i: nat)
    requires i < |order|
    ensures forall key :: HasSource(rows, order[..i + 1], key) <==>
      HasSource(rows, order[..i], key)
      || (Promoted(rows, order[i]) && rows[order[i]].target == key && rows[order[i]].fromClass.Some?)
  {
    assert order[..i + 1] == order[..i] + [order[i]];
  }

  // ------------------------------------------------------------------
  // Applying the lines
  // ------------------------------------------------------------------

  function Moved(rows: Table, x: Id, resolved: map<Target, Id>, was: Student): Student
    requires x in rows && (Promoted(rows, x) ==> rows[x].target in resolved)
  {
    match Effective(rows[x])
    case Promote => was.(classId := Some(resolved[rows[x].target]))
    case Graduate => Student(None, Graduated)
    case Withdraw => Student(None, Withdrawn)
    case Hold => was
  }

  function Stamped(rows: Table, x: Id, resolved: map<Target, Id>): Row
    requires x in rows && (Promoted(rows, x) ==> rows[x].target in resolved)
  {
    match Effective(rows[x])
    case Promote => rows[x].(toClass := Some(resolved[rows[x].target]), applied := true)
    case Hold => rows[x]
    case _ => rows[x].(applied := true)
  }

  predicate Distinct(order: seq<Id>) { forall i, j :: 0 <= i < j < |order| ==> order[i] != order[j] }

  /** Step 2: one line after the other. */
  method ApplyLines(rows: Table, students: Students, order: seq<Id>, resolved: map<Target, Id>)
    returns (ok: bool, blocked: Id, rows': Table, students': Students)
    requires Distinct(order) && forall x :: x in order ==> x in rows && x in students
    ensures ok <==> forall x :: x in order && Promoted(rows, x) ==> rows[x].target in resolved
    ensures !ok ==> blocked in order && Promoted(rows, blocked) && rows[blocked].target !in resolved
    ensures ok ==> rows'.Keys == rows.Keys && students'.Keys == students.Keys
    ensures ok ==> forall x :: x in rows ==> rows'[x] == if x in order then Stamped(rows, x, resolved) else rows[x]
    ensures ok ==> forall x :: x in students ==>
                     students'[x] == if x in order then Moved(rows, x, resolved, students[x]) else students[x]
  {
    rows', students', blocked := rows, students, 1;
    for i := 0 to |order|
      invariant rows'.Keys == rows.Keys && students'.Keys == students.Keys
      invariant forall x :: x in order[..i] && Promoted(rows, x) ==> rows[x].target in resolved
      invariant forall x :: x in rows ==> rows'[x] == if x in order[..i] then Stamped(rows, x, resolved) else rows[x]
      invariant forall x :: x in students ==>
                  students'[x] == if x in order[..i] then Moved(rows, x, resolved, students[x]) else students[x]
    {
      var x := order[i];
      var row := rows[x];
      assert order[..i + 1] == order[..i] + [x];
      assert x !in order[..i];
      match Effective(row) {
        case Promote =>
          if row.target !in resolved {
            return false, x, rows', students';
          }
          var c := resolved[row.target];
          students' := students'[x := students'[x].(classId := Some(c))];
          rows' := rows'[x := row.(toClass := Some(c), applied := true)];
        case Graduate =>
          students' := students'[x := Student(None, Graduated)];
          rows' := rows'[x := row.(applied := true)];
        case Withdraw =>
          students' := students'[x := Student(None, Withdrawn)];
          rows' := rows'[x := row.(applied := true)];
        case Hold =>
      }
    }
    assert order[..|order|] == order;
    ok := true;
  }

  // ------------------------------------------------------------------
  // The years and the summary
  // ------------------------------------------------------------------

  predicate AtMostOneActive(years: map<Id, YearStatus>) {
    forall y, z :: y in years && z in years && years[y].Active? && years[z].Active? ==> y == z
  }

  /** Step 3, closing before opening: the unique index on the active year is checked after each
      of the two updates, so this order is what keeps it satisfied. */
  method FlipYears(years: map<Id, YearStatus>, fromYear: Id, toYear: Id) returns (ok: bool, years': map<Id, YearStatus>)
    requires fromYear in years && toYear in years && fromYear != toYear && AtMostOneActive(years)
    ensures ok <==> forall y :: y in years && years[y].Active? ==> y == fromYear || y == toYear
    ensures ok ==> AtMostOneActive(years') && years' == years[fromYear := Closed][toYear := Active]
  {
    years' := years[fromYear := Closed];
    assert forall y :: y in years' ==> years'[y] == if y == fromYear then Closed else years[y];
    if exists y :: y in years' && y != toYear && years'[y].Active? {
      var y :| y in years' && y != toYear && years'[y].Active?;
      assert y in years && years[y].Active? && y != fromYear;
      return false, years;
    }
    forall y | y in years && years[y].Active?
      ensures y == fromYear || y == toYear
    {
      assert y in years';
    }
    years' := years'[toYear := Active];
    ok := true;
  }

  function CountOf(rows: Table, order: seq<Id>, action: Action): nat
    requires forall x :: x in order ==> x in rows
  {
    if order == [] then 0
    else CountOf(rows, order[..|order| - 1], action) + if Effective(rows[order[|order| - 1]]) == action then 1 else 0
  }

  /** The four counts of the summary add up to the lines that were outstanding. */
  lemma {:induction false} SummaryAddsUp(rows: Table, order: seq<Id>)
    requires forall x :: x in order ==> x in rows
    ensures CountOf(rows, order, Promote) + CountOf(rows, order, Graduate)
            + CountOf(rows, order, Withdraw) + CountOf(rows, order, Hold) == |order|
  {
    if order != [] {
      SummaryAddsUp(rows, order[..|order| - 1]);
    }
  }

  predicate Says(row: Row, action: Action) {
    row.override == Some(action) || (row.override.None? && row.proposed == action)
  }

  /** The students whose line, by override or else by proposal, says so. */
  function LinesFor(rows: Table, order: seq<Id>, action: Action): set<Id>
    requires forall x :: x in order ==> x in rows
  {
    set x | x in order && Says(rows[x], action)
  }

  /** And each counts the lines of its action. */
  lemma {:induction false} CountIsExact(rows: Table, order: seq<Id>, action: Action)
    requires Distinct(order) && forall x :: x in order ==> x in rows
    ensures CountOf(rows, order, action) == |LinesFor(rows, order, action)|
  {
    if order != [] {
      CountIsExact(rows, order[..|order| - 1], action);
      OneLineMore(rows, order, action);
    }
  }

  lemma OneLineMore(rows: Table, order: seq<Id>, action: Action)
    requires order != [] && Distinct(order) && forall x :: x in order ==> x in rows
    ensures |LinesFor(rows, order, action)| ==
      |LinesFor(rows, order[..|order| - 1], action)| + if Effective(rows[order[|order| - 1]]) == action then 1 else 0
  {
    var init, last := order[..|order| - 1], order[|order| - 1];
    var before, after := LinesFor(rows, init, action), LinesFor(rows, order, action);
    assert last !in before;
    assert Effective(rows[last]) == action <==> Says(rows[last], action);
    forall x ensures x in after <==> x in before || (x == last && Says(rows[last], action)) {
      InInitOrLast(order, x);
    }
    assert after == if Says(rows[last], action) then before + {last} else before;
  }

  lemma InInitOrLast(order: seq<Id>, x: Id)
    requires order != []
    ensures x in order <==> x in order[..|order| - 1] || x == order[|order| - 1]
  {
    assert order == order[..|order| - 1] + [order[|order| - 1]];
  }

  /** `order` lists the lines `applied_at IS NULL` selects. */
  ghost predicate Outstanding(rows: Table, order: seq<Id>) {
    Distinct(order) && forall x :: x in order <==> x in rows && !rows[x].applied
  }

  predicate SameTarget(rows: Table, order: seq<Id>, x: Id, y: Id) {
    x in order && y in order && Promoted(rows, x) && Promoted(rows, y) && rows[x].target == rows[y].target
  }

  // ------------------------------------------------------------------
  // The transaction
  // ------------------------------------------------------------------

  /** The tables a commit reads and writes. */
  datatype School = School(levels: map<Id, string>, classes: Classes, students: Students,
                           years: map<Id, YearStatus>, rows: Table)

  ghost predicate SchoolOk(s: School, fromYear: Id, toYear: Id) {
    && KeysExist(s.levels, s.classes, s.students, s.rows)
    && fromYear in s.years && toYear in s.years && fromYear != toYear
    && AtMostOneActive(s.years)
    && forall x :: x in s.students && s.students[x].classId.Some? ==> s.students[x].classId.value in s.classes
  }

  /** When a previewed rollover can be committed. */
  ghost predicate CanApply(s: School, order: seq<Id>, fromYear: Id, toYear: Id) {
    Resolvable(s.rows, order) && forall y :: y in s.years && s.years[y].Active? ==> y == fromYear || y == toYear
  }

  /** What a commit leaves behind for one outstanding line. */
  ghost predicate Settled(s: School, t: School, toYear: Id, x: Id) {
    && x in s.rows && x in t.rows && x in s.students && x in t.students
    && match Effective(s.rows[x])
       case Promote =>
         && t.students[x].classId.Some? && t.rows[x].toClass == t.students[x].classId && t.rows[x].applied
         && t.students[x].standing == s.students[x].standing
         && Stands(t.levels, t.classes, toYear, s.rows[x].target, t.students[x].classId.value)
       case Graduate => t.students[x] == Student(None, Graduated) && t.rows[x].applied
       case Withdraw => t.students[x] == Student(None, Withdrawn) && t.rows[x].applied
       case Hold => t.students[x] == s.students[x] && t.rows[x] == s.rows[x]
  }

  /** The school before and after a commit: no class or student disappears, students without an
      outstanding line are left alone, the others are settled, classmates stay together, and the
      years change hands. */
  ghost predicate Applied(s: School, t: School, order: seq<Id>, fromYear: Id, toYear: Id) {
    && t.levels == s.levels
    && (forall c :: c in s.classes ==> c in t.classes && t.classes[c] == s.classes[c])
    && (forall c :: c in t.classes && c !in s.classes ==>
          t.classes[c].year == toYear && ClonedFrom(s.levels, s.rows, order, s.classes, t.classes[c]))
    && t.students.Keys == s.students.Keys && t.rows.Keys == s.rows.Keys
    && (forall x :: x in s.students && x !in order ==> t.students[x] == s.students[x])
    && (forall x :: x in s.rows && x !in order ==> t.rows[x] == s.rows[x])
    && (forall x :: x in s.rows ==> t.rows[x] == s.rows[x].(toClass := t.rows[x].toClass, applied := t.rows[x].applied))
    && (forall x :: x in order ==> Settled(s, t, toYear, x))
    && (forall x, y :: SameTarget(s.rows, order, x, y) && x in t.students && y in t.students ==>
          t.students[x].classId == t.students[y].classId)
    && t.years == s.years[fromYear := Closed][toYear := Active]
  }

  /** The transaction on its own copy of the tables; `None` stands for the rollback. */
  method Transact(s: School, order: seq<Id>, fromYear: Id, toYear: Id, nextId: Id)
    returns (result: Result<School, CommitError>, nextId': Id)
    requires SchoolOk(s, fromYear, toYear) && Outstanding(s.rows, order) && forall c :: c in s.classes ==> c < nextId
    ensures result.Success? <==> CanApply(s, order, fromYear, toYear)
    ensures result.Success? ==> Applied(s, result.value, order, fromYear, toYear) && AtMostOneActive(result.value.years)
    ensures result.Success? ==> forall c :: c in result.value.classes ==> c < nextId'
  {
    var ok, classes', resolved;
    ok, classes', resolved, nextId' := EnsureClasses(s.levels, s.classes, s.rows, order, toYear, nextId);
    if !ok {
      return Failure(NoSuchLevel), nextId;
    }
    var blocked, rows', students';
    ok, blocked, rows', students' := ApplyLines(s.rows, s.students, order, resolved);
    if !ok {
      return Failure(NoTargetClass(blocked)), nextId;
    }
    ResolvedMeansResolvable(s, order, resolved);
    var years';
    ok, years' := FlipYears(s.years, fromYear, toYear);
    if !ok {
      return Failure(TwoActiveYears), nextId;
    }
    var t := School(s.levels, classes', students', years', rows');
    StepsMakeApplied(s, t, order, fromYear, toYear, resolved);
    result := Success(t);
  }

  /** The three steps together are the specified effect. */
  lemma StepsMakeApplied(s: School, t: School, order: seq<Id>, fromYear: Id, toYear: Id, resolved: map<Target, Id>)
    requires SchoolOk(s, fromYear, toYear) && Outstanding(s.rows, order) && t.levels == s.levels
    requires forall x :: x in order && Promoted(s.rows, x) ==> s.rows[x].target in resolved
    requires forall key :: key in resolved ==> Stands(s.levels, t.classes, toYear, key, resolved[key])
    requires forall c :: c in s.classes ==> c in t.classes && t.classes[c] == s.classes[c]
    requires forall c :: c in t.classes && c !in s.classes ==>
      t.classes[c].year == toYear && ClonedFrom(s.levels, s.rows, order, s.classes, t.classes[c])
    requires t.rows.Keys == s.rows.Keys && t.students.Keys == s.students.Keys
    requires forall x :: x in s.rows ==> t.rows[x] == if x in order then Stamped(s.rows, x, resolved) else s.rows[x]
    requires forall x :: x in s.students ==>
      t.students[x] == if x in order then Moved(s.rows, x, resolved, s.students[x]) else s.students[x]
    requires t.years == s.years[fromYear := Closed][toYear := Active]
    ensures Applied(s, t, order, fromYear, toYear)
  {
    forall x | x in s.rows
      ensures t.rows[x] == s.rows[x].(toClass := t.rows[x].toClass, applied := t.rows[x].applied)
    {
      StampKeepsPlan(s.rows, x, resolved, x in order);
    }
    forall x | x in order
      ensures Settled(s, t, toYear, x)
    {
      StepSettles(s, t, toYear, resolved, x);
    }
    ClassmatesStayTogether(s, t, order, resolved);
  }

  lemma ClassmatesStayTogether(s: School, t: School, order: seq<Id>, resolved: map<Target, Id>)
    requires forall x :: x in order && Promoted(s.rows, x) ==> s.rows[x].target in resolved
    requires forall x :: x in order ==> x in s.rows
    requires forall x :: x in s.students && x in order ==>
      x in t.students && t.students[x] == Moved(s.rows, x, resolved, s.students[x])
    requires t.students.Keys == s.students.Keys
    ensures forall x, y :: SameTarget(s.rows, order, x, y) && x in t.students && y in t.students ==>
              t.students[x].classId == t.students[y].classId
  {
    forall x, y | SameTarget(s.rows, order, x, y) && x in t.students && y in t.students
      ensures t.students[x].classId == t.students[y].classId
    {
      assert t.students[x] == Moved(s.rows, x, resolved, s.students[x]);
      assert t.students[y] == Moved(s.rows, y, resolved, s.students[y]);
    }
  }

  /** Applying a line records where it led and nothing else. */
  lemma StampKeepsPlan(rows: Table, x: Id, resolved: map<Target, Id>, stamp: bool)
    requires x in rows && (stamp && Promoted(rows, x) ==> rows[x].target in resolved)
    ensures stamp ==>
      var row := Stamped(rows, x, resolved); row == rows[x].(toClass := row.toClass, applied := row.applied)
  {
  }

  lemma StepSettles(s: School, t: School, toYear: Id, resolved: map<Target, Id>, x: Id)
    requires t.levels == s.levels && x in s.rows && x in s.students && x in t.rows && x in t.students
    requires Promoted(s.rows, x) ==> s.rows[x].target in resolved
    requires Promoted(s.rows, x) ==> Stands(s.levels, t.classes, toYear, s.rows[x].target, resolved[s.rows[x].target])
    requires t.rows[x] == Stamped(s.rows, x, resolved)
    requires t.students[x] == Moved(s.rows, x, resolved, s.students[x])
    ensures Settled(s, t, toYear, x)
  {
  }

  lemma ResolvedMeansResolvable(s: School, order: seq<Id>, resolved: map<Target, Id>)
    requires forall key :: key in resolved <==> HasSource(s.rows, order, key)
    requires forall key :: key in resolved ==> key.level.Some?
    requires forall x :: x in order && Promoted(s.rows, x) ==> s.rows[x].target in resolved
    ensures Resolvable(s.rows, order)
  {
  }

  /** What a commit does to one student with an outstanding line, in terms of the line's columns:
      the override decides, or without one the proposal. */
  lemma OutcomeOfLine(s: School, t: School, order: seq<Id>, fromYear: Id, toYear: Id, x: Id)
    requires Applied(s, t, order, fromYear, toYear) && x in order
    ensures x in s.rows && x in t.rows && x in s.students && x in t.students
    ensures var row, before, after := s.rows[x], s.students[x], t.students[x];
      && (row.override == Some(Promote) || (row.override.None? && row.proposed.Promote?) ==>
            && after.standing == before.standing && after.classId.Some? && t.rows[x].toClass == after.classId
            && after.classId.value in t.classes && t.classes[after.classId.value].year == toYear
            && row.target.level.Some? && row.target.level.value in s.levels
            && t.classes[after.classId.value].name ==
                 s.levels[row.target.level.value] + " - " + row.target.section.GetOr("None"))
      && (row.override == Some(Graduate) || (row.override.None? && row.proposed.Graduate?) ==>
            after.classId.None? && after.standing.Graduated?)
      && (row.override == Some(Withdraw) || (row.override.None? && row.proposed.Withdraw?) ==>
            after.classId.None? && after.standing.Withdrawn?)
      && (row.override == Some(Hold) || (row.override.None? && row.proposed.Hold?) ==>
            after == before && t.rows[x] == row)
      && (t.rows[x].applied <==>
            row.applied || !(row.override == Some(Hold) || (row.override.None? && row.proposed.Hold?)))
  {
    assert Settled(s, t, toYear, x);
  }

  /** An enrolled student sitting in a class of `year`. */
  predicate SitsIn(s: School, year: Id, x: Id) {
    && x in s.students && s.students[x].standing.Enrolled? && s.students[x].classId.Some?
    && s.students[x].classId.value in s.classes && s.classes[s.students[x].classId.value].year == year
  }

  /** After a commit a student still sits in the closed year if and only if they sat there before
      and had no outstanding line, or one on hold. */
  lemma WhoIsLeftBehind(s: School, t: School, order: seq<Id>, fromYear: Id, toYear: Id, x: Id)
    requires SchoolOk(s, fromYear, toYear) && Outstanding(s.rows, order) && Applied(s, t, order, fromYear, toYear)
    ensures SitsIn(t, fromYear, x) <==> SitsIn(s, fromYear, x) && (x !in order || Effective(s.rows[x]).Hold?)
  {
    if x in order {
      assert Settled(s, t, toYear, x);
    }
  }

  /** So everybody has moved on exactly when the plan held nobody back and missed nobody. */
  lemma EverybodyMovedOn(s: School, t: School, order: seq<Id>, fromYear: Id, toYear: Id)
    requires SchoolOk(s, fromYear, toYear) && Outstanding(s.rows, order) && Applied(s, t, order, fromYear, toYear)
    ensures (forall x :: !SitsIn(t, fromYear, x)) <==>
            (forall x :: SitsIn(s, fromYear, x) ==> x in order && !Effective(s.rows[x]).Hold?)
  {
    forall x
      ensures SitsIn(t, fromYear, x) <==> SitsIn(s, fromYear, x) && (x !in order || Effective(s.rows[x]).Hold?)
    {
      WhoIsLeftBehind(s, t, order, fromYear, toYear, x);
    }
  }

  class SchoolStore {
    var school: School
    var phase: Phase
    var summary: Summary
    var nextId: Id
    const fromYear: Id
    const toYear: Id

    ghost predicate Valid()
      reads this
    {
      SchoolOk(school, fromYear, toYear) && forall c :: c in school.classes ==> c < nextId
    }

    /** `commit_year_rollover`.  It succeeds exactly on a committed rollover, which it leaves
        untouched, and on a previewed one that can be applied; every failure changes nothing. */
    method CommitYearRollover(order: seq<Id>) returns (result: Result<Summary, CommitError>)
      requires Valid() && Outstanding(school.rows, order)
      modifies this
      ensures Valid()
      ensures result.Success? <==>
        old(phase).Committed? || (old(phase).Previewed? && CanApply(old(school), order, fromYear, toYear))
      ensures result.Failure? || old(phase).Committed? ==>
        school == old(school) && phase == old(phase) && summary == old(summary)
      ensures result.Success? ==> phase.Committed? && result.value == summary
      ensures result.Success? && old(phase).Previewed? ==>
        && Applied(old(school), school, order, fromYear, toYear)
        && summary.promoted == CountOf(old(school).rows, order, Promote)
        && summary.graduated == CountOf(old(school).rows, order, Graduate)
        && summary.withdrawn == CountOf(old(school).rows, order, Withdraw)
        && summary.held == CountOf(old(school).rows, order, Hold)
        && summary.promoted + summary.graduated + summary.withdrawn + summary.held == |order|
    {
      if phase.Committed? {
        return Success(summary);
      }
      if !phase.Previewed? {
        return Failure(NotPreviewed);
      }
      var outcome, next := Transact(school, order, fromYear, toYear, nextId);
      if outcome.Failure? {
        return Failure(outcome.error);
      }
      var rows := school.rows;
      SummaryAddsUp(rows, order);
      summary := Summary(CountOf(rows, order, Promote), CountOf(rows, order, Graduate),
                         CountOf(rows, order, Withdraw), CountOf(rows, order, Hold));
      AppliedKeepsOk(school, outcome.value, order, fromYear, toYear);
      school, nextId, phase := outcome.value, next, Committed;
      result := Success(summary);
    }
  }

  lemma AppliedKeepsOk(s: School, t: School, order: seq<Id>, fromYear: Id, toYear: Id)
    requires SchoolOk(s, fromYear, toYear) && Outstanding(s.rows, order)
    requires Applied(s, t, order, fromYear, toYear) && AtMostOneActive(t.years)
    ensures SchoolOk(t, fromYear, toYear)
  {
    forall x | x in t.rows
      ensures x in t.students
      ensures t.rows[x].target.level.Some? ==> t.rows[x].target.level.value in t.levels
      ensures t.rows[x].fromClass.Some? ==> t.rows[x].fromClass.value in t.classes
    {
      assert x in s.rows && t.rows[x].target == s.rows[x].target && t.rows[x].fromClass == s.rows[x].fromClass;
    }
    forall x | x in t.students && t.students[x].classId.Some?
      ensures t.students[x].classId.value in t.classes
    {
      if x in order {
        assert Settled(s, t, toYear, x);
      }
    }
  }

  /** Straight after a preview that settled everyone, the lines are such that a commit cannot
      fail for want of a class: the preview's promise is what the commit needs. */
  lemma PreviewMakesCommitResolvable(s: State, facts: seq<Fact>, order: seq<Id>)
    requires RolloverRuns.Inv(s) && FactsOk(s, facts) && Next(s, Preview(facts)).1.None?
    requires LevelsKnown(s.rows, facts)
    requires Outstanding(Next(s, Preview(facts)).0.rows, order)
    ensures Resolvable(Next(s, Preview(facts)).0.rows, order)
    ensures forall x :: x in order ==> !Effective(Next(s, Preview(facts)).0.rows[x]).Hold?
  {
    PreviewGate(s, facts);
    RecomputedRows(facts, s.rows, s.nextId);
    var t := Next(s, Preview(facts)).0;
    forall x | x in order
      ensures Placed(t.rows[x]) && t.rows[x].fromClass.Some?
    {
      var i :| 0 <= i < |facts| && facts[i].student == x;
    }
  }

  /** Preview, then commit at once: if the facts covered everyone sitting in the from-year and no
      line had been applied before, nobody is left sitting in the closed year. */
  lemma PreviewThenCommitMovesEveryone(p: State, facts: seq<Fact>, s: School, t: School, order: seq<Id>,
                                       fromYear: Id, toYear: Id)
    requires RolloverRuns.Inv(p) && FactsOk(p, facts) && Next(p, Preview(facts)).1.None?
    requires s.rows == Next(p, Preview(facts)).0.rows && LevelsKnown(p.rows, facts)
    requires forall x :: x in s.rows ==> !s.rows[x].applied
    requires forall x :: SitsIn(s, fromYear, x) ==> exists i :: 0 <= i < |facts| && facts[i].student == x
    requires SchoolOk(s, fromYear, toYear) && Outstanding(s.rows, order) && Applied(s, t, order, fromYear, toYear)
    ensures forall x :: !SitsIn(t, fromYear, x)
  {
    PreviewGate(p, facts);
    PreviewMakesCommitResolvable(p, facts, order);
    EverybodyMovedOn(s, t, order, fromYear, toYear);
    forall x | SitsIn(s, fromYear, x)
      ensures x in order && !Effective(s.rows[x]).Hold?
    {
      var i :| 0 <= i < |facts| && facts[i].student == x;
      assert x in s.rows;
    }
  }
}
