/** Resource lines and their costs: `add_resources_to_event`, `set_resource_cost` and
    `get_resource_summary` of `app/domains/tenant/service.py`, and the line operations of
    `app/domains/events/service.py`. Prices count ten-thousandths. */
module ResourceModel {
  import opened Wrappers
  import opened TripModel

  /** A row of `resources`. */
  datatype Line = Line(event: Id, kind: Id, description: Option<string>, quantity: int)

  /** A row of `resource_cost`; its key is the line's id. */
  datatype Cost = Cost(event: Id, unitPrice: int, total: int, currency: string)

  datatype Budget = Budget(statuses: map<Id, Status>, lines: map<Id, Line>, costs: map<Id, Cost>, nextId: Id)

  /** One line of a full replacement. */
  datatype NewLine = NewLine(kind: Id, description: Option<string>, quantity: int)

  /** `editable` is the answer of `require_editable`. A replacement's inserts are separate
      statements on the pool, outside the transaction its caller opened, so it may stop after
      `inserted` of them. */
  datatype Step =
    | Price(line: Id, unitPrice: int, currency: string)
    | Update(line: Id, editable: bool, kind: Option<Id>, description: Option<string>, quantity: Option<int>)
    | Add(event: Id, editable: bool, new_: NewLine)
    | Remove(line: Id, editable: bool)
    | Replace(event: Id, lines_: seq<NewLine>, inserted: nat)
    | Move(event: Id, status: Status)          // a trip request changed the status

  function SetCost(costs: map<Id, Cost>, id: Id, line: Line, unitPrice: int, currency: string): map<Id, Cost> {
    costs[id := Cost(line.event, unitPrice, unitPrice * line.quantity, currency)]
  }

  /** Deleting lines deletes their costs (ON DELETE CASCADE). */
  function WithoutLines(s: Budget, gone: set<Id>): Budget {
    s.(lines := s.lines - gone, costs := s.costs - gone)
  }

  function Insert(s: Budget, event: Id, n: NewLine): Budget {
    s.(lines := s.lines[s.nextId := Line(event, n.kind, n.description, n.quantity)], nextId := s.nextId + 1)
  }

  /** The inserts of a replacement, up to the one that fails. */
  function InsertAll(s: Budget, event: Id, lines: seq<NewLine>): Budget
    decreases |lines|
  {
    if lines == [] || lines[0].quantity <= 0 then s else InsertAll(Insert(s, event, lines[0]), event, lines[1..])
  }

  function LinesOf(s: Budget, event: Id): set<Id> { set l | l in s.lines && s.lines[l].event == event }

  function Changed(line: Line, kind: Option<Id>, description: Option<string>, quantity: Option<int>): Line {
    line.(kind := kind.GetOr(line.kind),
          description := Coalesce(description, line.description),
          quantity := quantity.GetOr(line.quantity))
  }

  /** The request changes something. */
  predicate Accepted(s: Budget, step: Step) {
    match step
    case Price(l, unitPrice, _) =>
      l in s.lines && unitPrice >= 0 && s.lines[l].event in s.statuses && !s.statuses[s.lines[l].event].Published?
    case Update(l, editable, _, _, quantity) => l in s.lines && editable && (quantity.Some? ==> quantity.value > 0)
    case Add(event, editable, n) => event in s.statuses && editable && n.quantity > 0
    case Remove(l, editable) => l in s.lines && editable
    case Replace(event, _, _) => event in s.statuses && s.statuses[event].Draft?
    case Move(event, _) => event in s.statuses && !s.statuses[event].Published?
  }

  function Apply(s: Budget, step: Step): Budget {
    if !Accepted(s, step) then s
    else
      match step
      case Price(l, unitPrice, currency) => s.(costs := SetCost(s.costs, l, s.lines[l], unitPrice, currency))
      case Update(l, _, kind, description, quantity) =>
        var line := Changed(s.lines[l], kind, description, quantity);
        var t := s.(lines := s.lines[l := line]);
        if quantity.Some? && l in s.costs
        then t.(costs := SetCost(s.costs, l, line, s.costs[l].unitPrice, s.costs[l].currency))
        else t
      case Add(event, _, n) => Insert(s, event, n)
      case Remove(l, _) => WithoutLines(s, {l})
      case Replace(event, lines, inserted) =>
        InsertAll(WithoutLines(s, LinesOf(s, event)), event, if inserted <= |lines| then lines[..inserted] else lines)
      case Move(event, status) => s.(statuses := s.statuses[event := status])
  }

  function Run(s: Budget, steps: seq<Step>): Budget
    decreases |steps|
  {
    if steps == [] then s else Run(Apply(s, steps[0]), steps[1..])
  }

  // ------------------------------------------------------------------
  // Totals
  // ------------------------------------------------------------------

  predicate Priced(lines: map<Id, Line>, id: Id, cost: Cost) {
    id in lines && cost.event == lines[id].event && cost.unitPrice >= 0
      && cost.total == cost.unitPrice * lines[id].quantity
  }

  ghost predicate Inv(s: Budget) {
    && (forall l :: l in s.lines ==> l < s.nextId && s.lines[l].quantity > 0)
    && (forall l :: l in s.costs ==> Priced(s.lines, l, s.costs[l]))
  }

  lemma InsertKeepsInv(s: Budget, event: Id, n: NewLine)
    requires Inv(s) && n.quantity > 0
    ensures Inv(Insert(s, event, n))
  {
    var t := Insert(s, event, n);
    forall l | l in t.costs ensures Priced(t.lines, l, t.costs[l]) {
      assert Priced(s.lines, l, s.costs[l]);
    }
  }

  lemma {:induction false} InsertAllKeepsInv(s: Budget, event: Id, lines: seq<NewLine>)
    requires Inv(s)
    ensures Inv(InsertAll(s, event, lines))
    decreases |lines|
  {
    if lines != [] && lines[0].quantity > 0 {
      InsertKeepsInv(s, event, lines[0]);
      InsertAllKeepsInv(Insert(s, event, lines[0]), event, lines[1..]);
    }
  }

  lemma RemovalKeepsInv(s: Budget, gone: set<Id>)
    requires Inv(s)
    ensures Inv(WithoutLines(s, gone))
  {
    var t := WithoutLines(s, gone);
    forall l | l in t.costs ensures Priced(t.lines, l, t.costs[l]) {
      assert Priced(s.lines, l, s.costs[l]);
    }
  }

  lemma UpdateKeepsInv(s: Budget, step: Step)
    requires Inv(s) && step.Update?
    ensures Inv(Apply(s, step))
  {
    var t := Apply(s, step);
    forall l | l in t.costs ensures Priced(t.lines, l, t.costs[l]) {
      assert l in s.costs && Priced(s.lines, l, s.costs[l]);
    }
  }

  lemma PriceKeepsInv(s: Budget, step: Step)
    requires Inv(s) && step.Price?
    ensures Inv(Apply(s, step))
  {
    var t := Apply(s, step);
    forall l | l in t.costs ensures Priced(t.lines, l, t.costs[l]) {
      assert l in s.costs ==> Priced(s.lines, l, s.costs[l]);
    }
  }

  lemma StepKeepsInv(s: Budget, step: Step)
    requires Inv(s)
    ensures Inv(Apply(s, step))
  {
    if Accepted(s, step) {
      match step
      case Price(_, _, _) => PriceKeepsInv(s, step);
      case Update(_, _, _, _, _) => UpdateKeepsInv(s, step);
      case Add(event, _, n) => InsertKeepsInv(s, event, n);
      case Remove(l, _) => RemovalKeepsInv(s, {l});
      case Replace(event, lines, inserted) =>
        RemovalKeepsInv(s, LinesOf(s, event));
        var added := if inserted <= |lines| then lines[..inserted] else lines;
        InsertAllKeepsInv(WithoutLines(s, LinesOf(s, event)), event, added);
      case Move(_, _) =>
    }
  }

  lemma {:induction false} RunKeepsInv(s: Budget, steps: seq<Step>)
    requires Inv(s)
    ensures Inv(Run(s, steps))
    decreases |steps|
  {
    if steps != [] {
      StepKeepsInv(s, steps[0]);
      RunKeepsInv(Apply(s, steps[0]), steps[1..]);
    }
  }

  /** Through pricing, quantity edits, additions, removals and (even interrupted) replacements, a
      priced line's total is its unit price times its quantity. */
  lemma TotalsFollowQuantities(s: Budget, steps: seq<Step>, l: Id)
    requires s.lines == map[] && s.costs == map[] && l in Run(s, steps).costs
    ensures var t := Run(s, steps);
      l in t.lines && t.costs[l].total == t.costs[l].unitPrice * t.lines[l].quantity
        && t.costs[l].event == t.lines[l].event
  {
    RunKeepsInv(s, steps);
    assert Priced(Run(s, steps).lines, l, Run(s, steps).costs[l]);
  }

  /** Pricing stores what was given: on an unpublished event the line's unit price and currency,
      and its total at the stored quantity; no other cost, and nothing else, changes. */
  lemma PricingIsExact(s: Budget, l: Id, unitPrice: int, currency: string)
    ensures var t := Apply(s, Price(l, unitPrice, currency));
      var may := l in s.lines && unitPrice >= 0 && s.lines[l].event in s.statuses
        && s.statuses[s.lines[l].event] in {Draft, Proposed, Approved};
      && (!may ==> t == s)
      && (may ==>
            && t == s.(costs := t.costs) && t.costs.Keys == s.costs.Keys + {l}
            && t.costs - {l} == s.costs - {l}
            && t.costs[l].event == s.lines[l].event && t.costs[l].unitPrice == unitPrice
            && t.costs[l].total == unitPrice * s.lines[l].quantity && t.costs[l].currency == currency)
  {
  }

  /** Editing a line changes what is given, keeps the rest, and re-prices on a given quantity. */
  lemma EditingIsExact(s: Budget, l: Id, editable: bool, kind: Option<Id>, description: Option<string>,
                       quantity: Option<int>)
    ensures var t := Apply(s, Update(l, editable, kind, description, quantity));
      var may := l in s.lines && editable && (quantity.Some? ==> quantity.value > 0);
      && (!may ==> t == s)
      && (may ==>
            && t.statuses == s.statuses && t.nextId == s.nextId
            && t.lines.Keys == s.lines.Keys && t.lines - {l} == s.lines - {l} && t.costs.Keys == s.costs.Keys
            && t.costs - {l} == s.costs - {l}
            && t.lines[l].event == s.lines[l].event
            && t.lines[l].kind == (if kind.Some? then kind.value else s.lines[l].kind)
            && t.lines[l].description == (if description.Some? then description else s.lines[l].description)
            && t.lines[l].quantity == (if quantity.Some? then quantity.value else s.lines[l].quantity)
            && (l in s.costs ==>
                  && t.costs[l].unitPrice == s.costs[l].unitPrice && t.costs[l].currency == s.costs[l].currency
                  && (quantity.None? ==> t.costs[l] == s.costs[l])
                  && (quantity.Some? ==> t.costs[l].total == s.costs[l].unitPrice * quantity.value)))
  {
  }

  /** Adding makes one line with what is given; removing takes one line and its cost; each for
      whoever may edit, and nothing else changes. */
  lemma AddingAndRemovingAreExact(s: Budget, event: Id, l: Id, editable: bool, n: NewLine)
    ensures var t := Apply(s, Add(event, editable, n));
      if event in s.statuses && editable && n.quantity > 0
      then t == s.(lines := s.lines[s.nextId := Line(event, n.kind, n.description, n.quantity)], nextId := s.nextId + 1)
      else t == s
    ensures var t := Apply(s, Remove(l, editable));
      if l in s.lines && editable then t == s.(lines := s.lines - {l}, costs := s.costs - {l}) else t == s
    ensures forall status ::
      Apply(s, Move(event, status)).statuses ==
        if event in s.statuses && s.statuses[event] != Published then s.statuses[event := status] else s.statuses
  {
  }

  /** Inserting adds the lines in order, each under the next id, up to the first that is refused. */
  lemma {:induction false} InsertingIsExact(s: Budget, event: Id, lines: seq<NewLine>, n: nat)
    requires n <= |lines| && (forall i :: 0 <= i < n ==> lines[i].quantity > 0)
    requires n < |lines| ==> lines[n].quantity <= 0
    ensures var t := InsertAll(s, event, lines);
      && t == s.(lines := t.lines, nextId := s.nextId + n)
      && (forall l :: l in t.lines <==> l in s.lines || s.nextId <= l < s.nextId + n)
      && (forall l :: l in s.lines && !(s.nextId <= l < s.nextId + n) ==> t.lines[l] == s.lines[l])
      && (forall i :: 0 <= i < n ==>
            t.lines[s.nextId + i] == Line(event, lines[i].kind, lines[i].description, lines[i].quantity))
    decreases n
  {
    if n > 0 {
      var s1 := Insert(s, event, lines[0]);
      InsertingIsExact(s1, event, lines[1..], n - 1);
      var t := InsertAll(s, event, lines);
      assert t == InsertAll(s1, event, lines[1..]);
      forall i | 0 <= i < n
        ensures t.lines[s.nextId + i] == Line(event, lines[i].kind, lines[i].description, lines[i].quantity)
      {
        if i > 0 {
          assert lines[1..][i - 1] == lines[i];
          assert s1.nextId + (i - 1) == s.nextId + i;
        }
      }
    }
  }

  /** A full replacement of a draft's lines: the old lines and their costs go, then the new ones
      come, in order, up to the first that is refused; the lines and costs of other events stay. */
  lemma ReplacingIsExact(s: Budget, event: Id, lines: seq<NewLine>, n: nat)
    requires Inv(s) && event in s.statuses && s.statuses[event] == Draft && n <= |lines|
    requires (forall i :: 0 <= i < n ==> lines[i].quantity > 0) && (n < |lines| ==> lines[n].quantity <= 0)
    ensures var t := Apply(s, Replace(event, lines, |lines|));
      && t.statuses == s.statuses
      && (forall l :: l in s.lines && s.lines[l].event != event ==> l in t.lines && t.lines[l] == s.lines[l])
      && (forall l :: l in t.lines && t.lines[l].event == event <==> s.nextId <= l < s.nextId + n)
      && (forall i :: 0 <= i < n ==>
            s.nextId + i in t.lines
            && t.lines[s.nextId + i] == Line(event, lines[i].kind, lines[i].description, lines[i].quantity))
      && (forall l :: l in t.costs <==> l in s.costs && s.lines[l].event != event)
      && (forall l :: l in t.costs ==> t.costs[l] == s.costs[l])
  {
    var cleared := WithoutLines(s, LinesOf(s, event));
    assert lines[..|lines|] == lines;
    InsertingIsExact(cleared, event, lines, n);
    var t := InsertAll(cleared, event, lines);
    forall l | s.nextId <= l < s.nextId + n ensures l in t.lines && t.lines[l].event == event {
      var i := l - s.nextId;
      assert t.lines[cleared.nextId + i] == Line(event, lines[i].kind, lines[i].description, lines[i].quantity);
    }
    forall l | l in s.costs ensures l in s.lines && s.costs[l].event == s.lines[l].event {
      assert Priced(s.lines, l, s.costs[l]);
    }
  }

  /** The line's event is published; a line once removed is not coming back. */
  ghost predicate OfPublished(s: Budget, l: Id, event: Id) {
    && event in s.statuses && s.statuses[event].Published? && l < s.nextId
    && (l in s.lines ==> s.lines[l].event == event)
  }

  /** The line, if it is there in the end, has the unit price it had, or none as before. */
  ghost predicate SamePrice(s: Budget, t: Budget, l: Id) {
    l in t.lines ==>
      && l in s.lines && (l in t.costs <==> l in s.costs)
      && (l in s.costs ==> t.costs[l].unitPrice == s.costs[l].unitPrice)
  }

  lemma StepKeepsPrice(s: Budget, step: Step, l: Id, event: Id)
    requires Inv(s) && OfPublished(s, l, event)
    ensures OfPublished(Apply(s, step), l, event) && SamePrice(s, Apply(s, step), l)
  {
    if step.Replace? && Accepted(s, step) {
      var cleared := WithoutLines(s, LinesOf(s, step.event));
      var added := if step.inserted <= |step.lines_| then step.lines_[..step.inserted] else step.lines_;
      InsertAllAddsOnly(cleared, step.event, added);
    }
  }

  lemma {:induction false} RunKeepsPrice(s: Budget, steps: seq<Step>, l: Id, event: Id)
    requires Inv(s) && OfPublished(s, l, event)
    ensures OfPublished(Run(s, steps), l, event) && SamePrice(s, Run(s, steps), l)
    decreases |steps|
  {
    if steps != [] {
      StepKeepsPrice(s, steps[0], l, event);
      StepKeepsInv(s, steps[0]);
      RunKeepsPrice(Apply(s, steps[0]), steps[1..], l, event);
    }
  }

  /** From publication on unit prices are frozen, over every run; totals still follow the quantity,
      which whoever may edit the event can change. */
  lemma PublishedPricesAreFrozen(s: Budget, steps: seq<Step>, l: Id)
    requires Inv(s) && l in s.lines && s.lines[l].event in s.statuses && s.statuses[s.lines[l].event].Published?
    ensures var t := Run(s, steps);
      l in t.lines ==>
        && (l in t.costs <==> l in s.costs)
        && (l in s.costs ==>
              t.costs[l].unitPrice == s.costs[l].unitPrice
                && t.costs[l].total == s.costs[l].unitPrice * t.lines[l].quantity)
  {
    RunKeepsPrice(s, steps, l, s.lines[l].event);
    RunKeepsInv(s, steps);
    var t := Run(s, steps);
    assert l in t.costs ==> Priced(t.lines, l, t.costs[l]);
  }

  lemma {:induction false} InsertAllAddsOnly(s: Budget, event: Id, lines: seq<NewLine>)
    ensures var t := InsertAll(s, event, lines);
      && t.costs == s.costs && t.statuses == s.statuses && t.nextId >= s.nextId
      && forall l :: l < s.nextId ==> (l in t.lines <==> l in s.lines) && (l in s.lines ==> t.lines[l] == s.lines[l])
    decreases |lines|
  {
    if lines != [] && lines[0].quantity > 0 {
      InsertAllAddsOnly(Insert(s, event, lines[0]), event, lines[1..]);
    }
  }

  // ------------------------------------------------------------------
  // The summary
  // ------------------------------------------------------------------

  /** What a line costs by unit price and quantity; an unpriced line costs nothing. */
  ghost function Value(s: Budget, l: Id): int {
    if l in s.costs && l in s.lines then s.costs[l].unitPrice * s.lines[l].quantity else 0
  }

  ghost function Sum(values: map<Id, int>): int {
    if |values| == 0 then 0
    else
      assert (forall l :: l !in values) ==> values == map[];
      var l :| l in values; values[l] + Sum(values - {l})
  }

  lemma {:induction false} SumWithout(values: map<Id, int>, l: Id)
    requires l in values
    ensures Sum(values) == values[l] + Sum(values - {l})
    decreases |values|
  {
    var k :| k in values && Sum(values) == values[k] + Sum(values - {k});
    if k != l {
      SumWithout(values - {k}, l);
      SumWithout(values - {l}, k);
      assert values - {k} - {l} == values - {l} - {k};
    }
  }

  /** What a set of lines costs. */
  ghost function Worth(s: Budget, ids: set<Id>): int { Sum(map l | l in ids :: Value(s, l)) }

  /** The rows are those lines, each once, in some order. */
  ghost predicate Lists(rows: seq<Id>, ids: set<Id>) {
    && (forall i, j :: 0 <= i < j < |rows| ==> rows[i] != rows[j])
    && (forall l :: l in rows <==> l in ids)
  }

  lemma ListedOnce(rows: seq<Id>, a: set<Id>, b: set<Id>)
    requires Lists(rows, a) && Lists(rows, b)
    ensures a == b
  {
    assert forall l :: l in a <==> l in b;
  }

  /** Listing one row more. */
  lemma ListsOneMore(s: Budget, rows: seq<Id>, ids: set<Id>, l: Id)
    requires Lists(rows, ids) && l !in ids
    ensures Lists(rows + [l], ids + {l}) && Worth(s, ids + {l}) == Worth(s, ids) + Value(s, l)
  {
    var values := map k | k in ids + {l} :: Value(s, k);
    SumWithout(values, l);
    assert values - {l} == map k | k in ids :: Value(s, k);
  }
}

/** The event budget over the stored tables. */
module ResourceService {
  import opened Wrappers
  import opened TripModel
  import opened ResourceModel

  datatype SummaryLine = SummaryLine(line: Id, quantity: int, unitPrice: int, total: int)

  class EventBudget {
    var statuses: map<Id, Status>
    var lines: map<Id, Line>
    var costs: map<Id, Cost>
    var nextId: Id

    ghost function Abs(): Budget
      reads this
    {
      Budget(statuses, lines, costs, nextId)
    }

    /** The line is changed first; a new quantity then re-prices it. */
    method UpdateResourceLine(l: Id, editable: bool, kind: Option<Id>, description: Option<string>,
                              quantity: Option<int>)
      modifies `lines, `costs
      ensures Abs() == Apply(old(Abs()), Update(l, editable, kind, description, quantity))
    {
      if l !in lines || !editable || (quantity.Some? && quantity.value <= 0) {
        return;
      }
      var merged := lines[l].(kind := kind.GetOr(lines[l].kind), quantity := quantity.GetOr(lines[l].quantity));
      if description.Some? {
        merged := merged.(description := description);
      }
      lines := lines[l := merged];
      if quantity.Some? {
        if l in costs {
          var unitPrice := costs[l].unitPrice;
          costs := costs[l := Cost(merged.event, unitPrice, unitPrice * merged.quantity, costs[l].currency)];
        }
      }
    }

    method SetResourceCost(l: Id, unitPrice: int, currency: string)
      modifies `costs
      ensures Abs() == Apply(old(Abs()), Price(l, unitPrice, currency))
    {
      if unitPrice < 0 || l !in lines {
        return;
      }
      var event := lines[l].event;
      if event !in statuses || statuses[event] == Published {
        return;
      }
      var total := unitPrice * lines[l].quantity;
      costs := costs[l := Cost(event, unitPrice, total, currency)];
    }

    /** The full replacement: delete all, then insert one by one until an insert fails. */
    method AddResourcesToEvent(event: Id, wanted: seq<NewLine>)
      modifies `lines, `costs, `nextId
      ensures Abs() == Apply(old(Abs()), Replace(event, wanted, |wanted|))
    {
      if event !in statuses || statuses[event] != Draft {
        return;
      }
      ghost var cleared := WithoutLines(Abs(), LinesOf(Abs(), event));
      var gone := set l | l in lines && lines[l].event == event;
      lines, costs := lines - gone, costs - gone;
      assert wanted[..|wanted|] == wanted;
      for i := 0 to |wanted|
        invariant statuses == old(statuses)
        invariant InsertAll(Abs(), event, wanted[i..]) == InsertAll(cleared, event, wanted)
      {
        assert wanted[i..][0] == wanted[i] && wanted[i..][1..] == wanted[i + 1..];
        if wanted[i].quantity <= 0 {
          return;
        }
        var n := wanted[i];
        lines, nextId := lines[nextId := Line(event, n.kind, n.description, n.quantity)], nextId + 1;
      }
    }

    /** The rows of an event; the query's order is by names of resource types, ties in any
        order. */
    method GetResourcesForEvent(event: Id) returns (rows: seq<Id>)
      ensures Lists(rows, LinesOf(Abs(), event))
    {
      rows := [];
      var rest := set l | l in lines && lines[l].event == event;
      while rest != {}
        invariant rest <= LinesOf(Abs(), event)
        invariant Lists(rows, LinesOf(Abs(), event) - rest)
        decreases rest
      {
        assert (forall l :: l !in rest) ==> rest == {};
        var l :| l in rest;
        ListsOneMore(Abs(), rows, LinesOf(Abs(), event) - rest, l);
        assert LinesOf(Abs(), event) - (rest - {l}) == LinesOf(Abs(), event) - rest + {l};
        rows, rest := rows + [l], rest - {l};
      }
    }

    /** The entry shows what is stored of its line and of its cost. */
    ghost predicate Shows(entry: SummaryLine)
      reads this
    {
      && entry.line in lines && entry.quantity == lines[entry.line].quantity
      && (if entry.line in costs
          then entry.unitPrice == costs[entry.line].unitPrice && entry.total == costs[entry.line].total
          else entry.unitPrice == entry.total == 0)
    }

    lemma ShownTotal(entry: SummaryLine)
      requires ResourceModel.Inv(Abs()) && Shows(entry)
      ensures entry.total == entry.unitPrice * entry.quantity == Value(Abs(), entry.line)
    {
      assert entry.line in costs ==> ResourceModel.Priced(lines, entry.line, costs[entry.line]);
    }

    /** The summary shows every line of the event once; the total it reports is what its entries
        add up to, and what the unit prices and quantities stored for the event come to. */
    method GetResourceSummary(event: Id) returns (summary: seq<SummaryLine>, total: int)
      requires ResourceModel.Inv(Abs())
      ensures Lists(LinesIn(summary), LinesOf(Abs(), event))
      ensures forall i :: 0 <= i < |summary| ==>
        Shows(summary[i]) && summary[i].total == summary[i].unitPrice * summary[i].quantity
      ensures total == SumTotals(summary) == Worth(Abs(), LinesOf(Abs(), event))
    {
      var rows := GetResourcesForEvent(event);
      summary, total := [], 0;
      ghost var done: set<Id> := {};
      for i := 0 to |rows|
        invariant LinesIn(summary) == rows[..i] && Lists(rows[..i], done)
        invariant forall k :: 0 <= k < |summary| ==> Shows(summary[k])
        invariant total == SumTotals(summary) == Worth(Abs(), done)
      {
        var r, unitPrice, lineTotal := rows[i], 0, 0;
        assert r in LinesOf(Abs(), event);
        if r in costs {
          unitPrice, lineTotal := costs[r].unitPrice, costs[r].total;
        }
        assert rows[..i + 1] == rows[..i] + [r];
        ListsOneMore(Abs(), rows[..i], done, r);
        var entry := SummaryLine(r, lines[r].quantity, unitPrice, lineTotal);
        ShownTotal(entry);
        OneMore(summary, entry);
        summary := summary + [entry];
        total, done := total + lineTotal, done + {r};
      }
      assert rows[..|rows|] == rows;
      ListedOnce(rows, done, LinesOf(Abs(), event));
      forall i | 0 <= i < |summary| ensures summary[i].total == summary[i].unitPrice * summary[i].quantity {
        ShownTotal(summary[i]);
      }
    }
  }

  ghost function LinesIn(summary: seq<SummaryLine>): seq<Id> {
    seq(|summary|, i requires 0 <= i < |summary| => summary[i].line)
  }

  ghost function SumTotals(lines: seq<SummaryLine>): int {
    if lines == [] then 0 else lines[0].total + SumTotals(lines[1..])
  }

  lemma {:induction false} OneMore(lines: seq<SummaryLine>, last: SummaryLine)
    ensures SumTotals(lines + [last]) == SumTotals(lines) + last.total
    ensures LinesIn(lines + [last]) == LinesIn(lines) + [last.line]
  {
    if lines == [] {
      assert (lines + [last])[1..] == [];
    } else {
      assert (lines + [last])[1..] == lines[1..] + [last];
      OneMore(lines[1..], last);
    }
  }
}
