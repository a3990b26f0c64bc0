/** Enrollments, their decisions and their payments, jointly with the trip lifecycle:
    `enroll_student`, `cancel_enrollment` and `pay_enrollment` of
    `app/domains/tenant/service.py`, and `enroll_student` and `update_enrollment_approval` of
    `app/domains/students/router.py`. */
module LedgerModel {
  import opened Wrappers
  import opened TripModel

  /** A row of `event_class_map`; `price` counts ten-thousandths. */
  datatype Mapping = Mapping(event: Id, class_: Id, price: int)

  datatype Stage = Requested | ApprovedByParent | RejectedByParent | ApprovedByTeacher | RejectedByTeacher

  datatype Enrollment = Enrollment(student: Id, mapping: Id, stage: Stage, teacher: Option<Id>, parent: Option<Id>)

  datatype Payment = Payment(enrollment: Id, amount: int, paid: bool)

  /** Who created or decided an enrollment, what they were to it at that moment, and the stage
      they left it in. */
  datatype Act = Act(actor: Actor, mayApprove: bool, createdTrip: bool, stage: Stage)

  /** What an enrollment was made at: its ticket price, and whether `payments.currency` was
      already NOT NULL. */
  datatype Terms = Terms(price: int, currencyRequired: bool)

  /** `create_payment` names no currency, so its insert fails once the column is required. */
  predicate Billable(terms: Terms) { terms.price > 0 && !terms.currencyRequired }

  /** `links` is `student_parent_map`: its keys are the linked (student, parent) pairs, its
      values the `can_approve` flags. `logs` and `terms` are history: what happened to each live
      enrollment, and what it was made at. */
  datatype Ledger = Ledger(
    events: map<Id, Event>, maps: map<Id, Mapping>, students: map<Id, Option<Id>>, links: map<(Id, Id), bool>,
    teachers: set<Id>, parents: set<Id>,
    enrollments: map<Id, Enrollment>, payments: map<Id, Payment>,
    logs: map<Id, seq<Act>>, terms: map<Id, Terms>, currencyRequired: bool, nextId: Id)

  datatype Refusal =
    | NotLinked | NoMapping | NotPublished | NoStudent | AlreadyEnrolled | WrongClass
    | NoEnrollment | WrongStage | BadTarget | NotTripCreator | NotPermitted | AlreadyPaid | NoPayment
    | HasHistory | ForeignKey | CurrencyMissing

  predicate CanApprove(links: map<(Id, Id), bool>, student: Id, parent: Id) {
    (student, parent) in links && links[(student, parent)]
  }

  // ------------------------------------------------------------------
  // Enrolling
  // ------------------------------------------------------------------

  /** The stage and recorded deciders of a new enrollment (`students/router.py`). */
  function FirstRow(links: map<(Id, Id), bool>, actor: Actor, student: Id)
      : Result<(Stage, Option<Id>, Option<Id>), Refusal> {
    if "parent" in actor.grants then
      if (student, actor.id) in links then
        if links[(student, actor.id)] then Success((ApprovedByParent, None, Some(actor.id)))
        else Success((Requested, None, None))
      else if "teacher" in actor.grants then Success((ApprovedByTeacher, Some(actor.id), None))
      else Failure(NotLinked)
    else if "teacher" in actor.grants then Success((ApprovedByTeacher, Some(actor.id), None))
    else Success((Requested, None, None))
  }

  predicate EnrolledOn(s: Ledger, student: Id, mapping: Id) {
    exists e :: e in s.enrollments && s.enrollments[e].student == student && s.enrollments[e].mapping == mapping
  }

  predicate ForEvent(maps: map<Id, Mapping>, mapping: Id, event: Id) { mapping in maps && maps[mapping].event == event }

  /** `get_enrollments_for_student_and_event` finds a row. */
  predicate EnrolledFor(s: Ledger, student: Id, event: Id) {
    exists e :: e in s.enrollments && s.enrollments[e].student == student
      && ForEvent(s.maps, s.enrollments[e].mapping, event)
  }

  predicate KeysExist(s: Ledger, teacher: Option<Id>, parent: Option<Id>) {
    (teacher.Some? ==> teacher.value in s.teachers) && (parent.Some? ==> parent.value in s.parents)
  }

  /** Why no enrollment is made; being enrolled through this very mapping already is not an
      error, the request then returns that row. */
  function EnrollError(s: Ledger, actor: Actor, student: Id, mapping: Id): Option<Refusal> {
    var row := FirstRow(s.links, actor, student);
    if row.Failure? then Some(row.error)
    else if mapping !in s.maps then Some(NoMapping)
    else
      var event := s.maps[mapping].event;
      if event !in s.events || !s.events[event].status.Published? then Some(NotPublished)
      else if student !in s.students then Some(NoStudent)
      else if EnrolledFor(s, student, event) then
        if EnrolledOn(s, student, mapping) then None else Some(AlreadyEnrolled)
      else if s.students[student] != Some(s.maps[mapping].class_) then Some(WrongClass)
      else if !KeysExist(s, row.value.1, row.value.2) then Some(ForeignKey)
      else None
  }

  /** The row, its history, and the payment if it can be made. */
  function WithRow(s: Ledger, actor: Actor, e: Enrollment): Ledger
    requires e.mapping in s.maps && s.maps[e.mapping].event in s.events
  {
    var id, terms := s.nextId, Terms(s.maps[e.mapping].price, s.currencyRequired);
    var entry := Act(actor, CanApprove(s.links, e.student, actor.id),
                     s.events[s.maps[e.mapping].event].createdBy == actor.id, e.stage);
    s.(enrollments := s.enrollments[id := e],
       logs := s.logs[id := [entry]],
       terms := s.terms[id := terms],
       payments := if Billable(terms) then s.payments[id + 1 := Payment(id, terms.price, false)] else s.payments,
       nextId := id + 2)
  }

  function Enroll(s: Ledger, actor: Actor, student: Id, mapping: Id): Ledger {
    if EnrollError(s, actor, student, mapping).Some? || EnrolledFor(s, student, s.maps[mapping].event) then s
    else
      var (stage, teacher, parent) := FirstRow(s.links, actor, student).value;
      WithRow(s, actor, Enrollment(student, mapping, stage, teacher, parent))
  }

  /** What the request answers. A failed payment insert fails the request, but the enrollment
      row is already committed. */
  function EnrollAnswer(s: Ledger, actor: Actor, student: Id, mapping: Id): Option<Refusal> {
    var error := EnrollError(s, actor, student, mapping);
    if error.None? && !EnrolledFor(s, student, s.maps[mapping].event) && s.maps[mapping].price > 0 && s.currencyRequired
    then Some(CurrencyMissing)
    else error
  }

  // ------------------------------------------------------------------
  // Deciding
  // ------------------------------------------------------------------

  predicate ParentDecision(s: Ledger, actor: Actor, e: Enrollment) {
    "parent" in actor.grants && CanApprove(s.links, e.student, actor.id)
  }

  function Creator(s: Ledger, e: Enrollment): Option<Id> {
    if e.mapping in s.maps && s.maps[e.mapping].event in s.events
    then Some(s.events[s.maps[e.mapping].event].createdBy) else None
  }

  function DecideError(s: Ledger, actor: Actor, id: Id, target: Stage): Option<Refusal> {
    if id !in s.enrollments || Creator(s, s.enrollments[id]).None? then Some(NoEnrollment)
    else
      var e := s.enrollments[id];
      if ParentDecision(s, actor, e) then
        if !e.stage.Requested? then Some(WrongStage)
        else if !target.ApprovedByParent? && !target.RejectedByParent? then Some(BadTarget)
        else if actor.id !in s.parents then Some(ForeignKey)
        else None
      else if "teacher" in actor.grants then
        if Creator(s, e) != Some(actor.id) then Some(NotTripCreator)
        else if !e.stage.ApprovedByParent? then Some(WrongStage)
        else if !target.ApprovedByTeacher? && !target.RejectedByTeacher? then Some(BadTarget)
        else if actor.id !in s.teachers || ("parent" in actor.grants && actor.id !in s.parents) then Some(ForeignKey)
        else None
      else Some(NotPermitted)
  }

  function Decide(s: Ledger, actor: Actor, id: Id, target: Stage): Ledger {
    if DecideError(s, actor, id, target).Some? then s
    else
      var e := s.enrollments[id];
      var byParent := ParentDecision(s, actor, e);
      var entry := Act(actor, CanApprove(s.links, e.student, actor.id), Creator(s, e) == Some(actor.id), target);
      var teacher := if byParent then e.teacher else Some(actor.id);
      // `parent_id` is set for whoever holds the parent role, also on a teacher's decision.
      var parent := if "parent" in actor.grants then Some(actor.id) else e.parent;
      s.(enrollments := s.enrollments[id := e.(stage := target, teacher := teacher, parent := parent)],
         logs := s.logs[id := (if id in s.logs then s.logs[id] else []) + [entry]])
  }

  // ------------------------------------------------------------------
  // Paying and cancelling
  // ------------------------------------------------------------------

  predicate HasPayment(payments: map<Id, Payment>, id: Id) { exists p :: p in payments && payments[p].enrollment == id }

  predicate HasPaid(payments: map<Id, Payment>, id: Id) {
    exists p :: p in payments && payments[p].enrollment == id && payments[p].paid
  }

  function PayError(s: Ledger, role: string, id: Id): Option<Refusal> {
    if role != "parent" then Some(NotPermitted) else if !HasPayment(s.payments, id) then Some(NoPayment) else None
  }

  function MarkedPaid(payments: map<Id, Payment>, id: Id): map<Id, Payment> {
    map p | p in payments :: if payments[p].enrollment == id then payments[p].(paid := true) else payments[p]
  }

  function Pay(s: Ledger, role: string, id: Id): Ledger {
    if PayError(s, role, id).Some? then s else s.(payments := MarkedPaid(s.payments, id))
  }

  function CancelError(s: Ledger, actor: Actor, id: Id): Option<Refusal> {
    if id !in s.enrollments then Some(NoEnrollment)
    else
      var student := s.enrollments[id].student;
      if "school_admin" !in actor.roles && "teacher" !in actor.roles
         && (if "parent" in actor.roles then !CanApprove(s.links, student, actor.id)
             else "student" !in actor.roles || student != actor.id)
      then Some(NotPermitted)
      else if HasPaid(s.payments, id) then Some(AlreadyPaid)
      else None
  }

  function PaymentsWithout(payments: map<Id, Payment>, gone: set<Id>): map<Id, Payment> {
    map p | p in payments && payments[p].enrollment !in gone :: payments[p]
  }

  /** Deleting enrollments deletes their payments (ON DELETE CASCADE). */
  function WithoutEnrollments(s: Ledger, gone: set<Id>): Ledger {
    s.(enrollments := s.enrollments - gone, logs := s.logs - gone, terms := s.terms - gone,
       payments := PaymentsWithout(s.payments, gone))
  }

  function Cancel(s: Ledger, actor: Actor, id: Id): Ledger {
    if CancelError(s, actor, id).Some? then s else WithoutEnrollments(s, {id})
  }

  // ------------------------------------------------------------------
  // Deleting trips and classes
  // ------------------------------------------------------------------

  function EnrollmentsFor(s: Ledger, event: Id): set<Id> {
    set e | e in s.enrollments && ForEvent(s.maps, s.enrollments[e].mapping, event)
  }

  /** `delete_event` has no guard: mappings, enrollments and payments go with the row. */
  function DeleteEvent(s: Ledger, event: Id): Ledger {
    WithoutEnrollments(s, EnrollmentsFor(s, event))
      .(events := s.events - {event}, maps := map m | m in s.maps && s.maps[m].event != event :: s.maps[m])
  }

  /** `_block_if_classes_have_enrollment_history`. */
  predicate ClassHasHistory(s: Ledger, class_: Id) {
    exists e :: e in s.enrollments && s.enrollments[e].mapping in s.maps
      && s.maps[s.enrollments[e].mapping].class_ == class_
  }

  function Without(classes: seq<Id>, class_: Id): seq<Id> {
    if classes == [] then [] else (if classes[0] == class_ then [] else [classes[0]]) + Without(classes[1..], class_)
  }

  function DeleteClass(s: Ledger, class_: Id): Ledger {
    if ClassHasHistory(s, class_) then s
    else s.(maps := map m | m in s.maps && s.maps[m].class_ != class_ :: s.maps[m],
            students := map c | c in s.students :: if s.students[c] == Some(class_) then None else s.students[c],
            events := map e | e in s.events :: s.events[e].(classes := Without(s.events[e].classes, class_)))
  }

  // ------------------------------------------------------------------
  // Runs
  // ------------------------------------------------------------------

  /** What happens to trips; `create_event` and `update_event_full` are a `CreateTrip` and any
      number of `MapClass` and `Reprice`. */
  datatype TripChange =
    | TripRequest(event: Id, request: Request, now: Time)
    | CreateTrip(creator: Id)
    | MapClass(event: Id, class_: Id, price: int)
    | Reprice(mapping: Id, price: int)

  /** What happens to people, their links and the schema. */
  datatype Change =
    | MoveStudent(student: Id, to: Option<Id>)
    | SetLink(student: Id, parent: Id, link: Option<bool>)
    | Register(person: Id, asTeacher: bool)
    | RequireCurrency   // tenant_0007

  datatype Step =
    | EnrollStudent(actor: Actor, student: Id, mapping: Id)
    | DecideEnrollment(actor: Actor, enrollment: Id, target: Stage)
    | PayEnrollment(role: string, enrollment: Id)
    | CancelEnrollment(actor: Actor, enrollment: Id)
    | RemoveEvent(event: Id)
    | RemoveClass(class_: Id)
    | OnTrips(trips: TripChange)
    | OnPeople(people: Change)

  function NewEvent(creator: Id): Event { Event(creator, [], Draft, None, None, None, None, None) }

  function ChangeTrips(s: Ledger, change: TripChange): Ledger {
    match change
    case TripRequest(event, request, now) =>
      if event !in s.events then s
      else s.(events := s.events[event := Next(State(s.events[event], now, []), request).event])
    case CreateTrip(creator) => s.(events := s.events[s.nextId := NewEvent(creator)], nextId := s.nextId + 1)
    case MapClass(event, class_, price) =>
      if event !in s.events then s
      else s.(maps := s.maps[s.nextId := Mapping(event, class_, price)], nextId := s.nextId + 1,
              events := s.events[event := s.events[event].(classes := s.events[event].classes + [class_])])
    case Reprice(mapping, price) =>
      if mapping !in s.maps then s else s.(maps := s.maps[mapping := s.maps[mapping].(price := price)])
  }

  function ChangePeople(s: Ledger, change: Change): Ledger {
    match change
    case MoveStudent(student, to) => s.(students := s.students[student := to])
    case SetLink(student, parent, link) =>
      s.(links := if link.Some? then s.links[(student, parent) := link.value] else s.links - {(student, parent)})
    case Register(person, asTeacher) =>
      if asTeacher then s.(teachers := s.teachers + {person}) else s.(parents := s.parents + {person})
    case RequireCurrency => s.(currencyRequired := true)
  }

  function Apply(s: Ledger, step: Step): Ledger {
    match step
    case EnrollStudent(actor, student, mapping) => Enroll(s, actor, student, mapping)
    case DecideEnrollment(actor, id, target) => Decide(s, actor, id, target)
    case PayEnrollment(role, id) => Pay(s, role, id)
    case CancelEnrollment(actor, id) => Cancel(s, actor, id)
    case RemoveEvent(event) => DeleteEvent(s, event)
    case RemoveClass(class_) => DeleteClass(s, class_)
    case OnTrips(change) => ChangeTrips(s, change)
    case OnPeople(change) => ChangePeople(s, change)
  }

  function Run(s: Ledger, steps: seq<Step>): Ledger
    decreases |steps|
  {
    if steps == [] then s else Run(Apply(s, steps[0]), steps[1..])
  }

  /** No trips, hence no enrollments, yet; people, classes and links as they are. */
  predicate Fresh(s: Ledger) {
    s.events == map[] && s.maps == map[] && s.enrollments == map[] && s.payments == map[] && s.logs == map[]
      && s.terms == map[]
  }

  // ------------------------------------------------------------------
  // What every reachable ledger keeps
  // ------------------------------------------------------------------

  ghost predicate IdsBelow(events: map<Id, Event>, maps: map<Id, Mapping>, enrollments: map<Id, Enrollment>,
                           payments: map<Id, Payment>, nextId: Id)
  {
    && (forall k :: k in events ==> k < nextId) && (forall k :: k in maps ==> k < nextId)
    && (forall k :: k in enrollments ==> k < nextId) && (forall k :: k in payments ==> k < nextId)
  }

  ghost predicate MapsHaveEvents(events: map<Id, Event>, maps: map<Id, Mapping>) {
    forall m :: m in maps ==> maps[m].event in events
  }

  /** Every enrollment is on a published trip. */
  ghost predicate OnPublishedTrips(events: map<Id, Event>, maps: map<Id, Mapping>, enrollments: map<Id, Enrollment>) {
    forall e :: e in enrollments ==>
      && enrollments[e].mapping in maps && maps[enrollments[e].mapping].event in events
      && events[maps[enrollments[e].mapping].event].status.Published?
  }

  predicate SameTrip(maps: map<Id, Mapping>, e: Enrollment, f: Enrollment) {
    && e.student == f.student && e.mapping in maps && f.mapping in maps
    && maps[e.mapping].event == maps[f.mapping].event
  }

  /** A student has at most one enrollment per trip. */
  ghost predicate OnePerTrip(maps: map<Id, Mapping>, enrollments: map<Id, Enrollment>) {
    forall e, f :: e in enrollments && f in enrollments && SameTrip(maps, enrollments[e], enrollments[f]) ==> e == f
  }

  /** An enrollment has exactly one payment, of the price it was made at, if it was billable
      then; otherwise it has none. */
  ghost predicate PaymentsMatch(enrollments: map<Id, Enrollment>, payments: map<Id, Payment>, terms: map<Id, Terms>) {
    && terms.Keys == enrollments.Keys && AmountsMatch(payments, terms) && OnePayment(payments)
    && AllBilled(payments, terms)
  }

  ghost predicate AmountsMatch(payments: map<Id, Payment>, terms: map<Id, Terms>) {
    forall p :: p in payments ==> Priced(payments[p], terms)
  }

  predicate Priced(payment: Payment, terms: map<Id, Terms>) {
    payment.enrollment in terms && Billable(terms[payment.enrollment])
      && payment.amount == terms[payment.enrollment].price
  }

  ghost predicate OnePayment(payments: map<Id, Payment>) {
    forall p, q :: p in payments && q in payments && payments[p].enrollment == payments[q].enrollment ==> p == q
  }

  ghost predicate AllBilled(payments: map<Id, Payment>, terms: map<Id, Terms>) {
    forall e :: e in terms ==> Billed(payments, terms, e)
  }

  predicate Billed(payments: map<Id, Payment>, terms: map<Id, Terms>, e: Id) {
    e in terms && Billable(terms[e]) ==> HasPayment(payments, e)
  }

  /** Reached by its creation: a request by anybody, an approval by an approving parent, or a
      direct enrollment by a teacher. */
  ghost predicate Created(entry: Act) {
    || entry.stage.Requested?
    || (entry.stage.ApprovedByParent? && "parent" in entry.actor.grants && entry.mayApprove)
    || (entry.stage.ApprovedByTeacher? && "teacher" in entry.actor.grants)
  }

  /** A decision: a parent allowed to approve settles a request, the trip's creator settles what
      a parent approved. */
  ghost predicate Decided(before: Stage, entry: Act) {
    || (before.Requested? && (entry.stage.ApprovedByParent? || entry.stage.RejectedByParent?)
        && "parent" in entry.actor.grants && entry.mayApprove)
    || (before.ApprovedByParent? && (entry.stage.ApprovedByTeacher? || entry.stage.RejectedByTeacher?)
        && "teacher" in entry.actor.grants && entry.createdTrip)
  }

  ghost predicate Lawful(log: seq<Act>, stage: Stage) {
    && log != [] && Created(log[0]) && log[|log| - 1].stage == stage
    && forall i :: 0 < i < |log| ==> DecidedAt(log, i)
  }

  ghost predicate DecidedAt(log: seq<Act>, i: nat) { 0 < i < |log| && Decided(log[i - 1].stage, log[i]) }

  ghost predicate Logged(enrollments: map<Id, Enrollment>, logs: map<Id, seq<Act>>) {
    logs.Keys == enrollments.Keys && forall e :: e in enrollments ==> Lawful(logs[e], enrollments[e].stage)
  }

  ghost predicate Sound(s: Ledger) {
    && IdsBelow(s.events, s.maps, s.enrollments, s.payments, s.nextId)
    && MapsHaveEvents(s.events, s.maps)
    && OnPublishedTrips(s.events, s.maps, s.enrollments)
    && OnePerTrip(s.maps, s.enrollments)
    && PaymentsMatch(s.enrollments, s.payments, s.terms)
    && Logged(s.enrollments, s.logs)
  }

  lemma EnrollKeepsInv(s: Ledger, actor: Actor, student: Id, mapping: Id)
    requires Sound(s)
    ensures Sound(Enroll(s, actor, student, mapping))
  {
    var t := Enroll(s, actor, student, mapping);
    if t != s {
      var id, e := s.nextId, t.enrollments[s.nextId];
      var terms := Terms(s.maps[mapping].price, s.currencyRequired);
      assert e.mapping == mapping && e.student == student;
      assert t == s.(enrollments := s.enrollments[id := e], logs := t.logs, terms := s.terms[id := terms],
                     payments := t.payments, nextId := id + 2);
      EnrollKeepsPayments(s.enrollments, s.payments, s.terms, id, id + 1, e, terms);
      EnrollKeepsOnePerTrip(s, id, e);
      EnrollIsLogged(s, actor, student, mapping);
      EnrollKeepsReferences(s, e, t.payments);
    }
  }

  lemma EnrollKeepsReferences(s: Ledger, e: Enrollment, payments: map<Id, Payment>)
    requires IdsBelow(s.events, s.maps, s.enrollments, s.payments, s.nextId)
    requires OnPublishedTrips(s.events, s.maps, s.enrollments)
    requires e.mapping in s.maps && s.maps[e.mapping].event in s.events
      && s.events[s.maps[e.mapping].event].status.Published?
    requires forall p :: p in payments ==> p in s.payments || p == s.nextId + 1
    ensures IdsBelow(s.events, s.maps, s.enrollments[s.nextId := e], payments, s.nextId + 2)
    ensures OnPublishedTrips(s.events, s.maps, s.enrollments[s.nextId := e])
  {
  }

  lemma EnrollKeepsPayments(enrollments: map<Id, Enrollment>, payments: map<Id, Payment>, all: map<Id, Terms>,
                            id: Id, p': Id, e: Enrollment, terms: Terms)
    requires PaymentsMatch(enrollments, payments, all) && id !in enrollments && p' !in payments
    ensures PaymentsMatch(enrollments[id := e],
                          if Billable(terms) then payments[p' := Payment(id, terms.price, false)] else payments,
                          all[id := terms])
  {
    var payments' := if Billable(terms) then payments[p' := Payment(id, terms.price, false)] else payments;
    var all' := all[id := terms];
    forall p | p in payments' ensures Priced(payments'[p], all') {
      assert p in payments ==> Priced(payments[p], all);
    }
    forall p, q | p in payments' && q in payments'
      && payments'[p].enrollment == payments'[q].enrollment ensures p == q {
      assert p in payments ==> Priced(payments[p], all);
      assert q in payments ==> Priced(payments[q], all);
    }
    forall k | k in all' ensures Billed(payments', all', k) {
      if k == id {
        assert Billable(terms) ==> payments'[p'].enrollment == id;
      } else {
        assert Billed(payments, all, k);
        if p :| p in payments && payments[p].enrollment == k {
          assert p in payments' && payments'[p] == payments[p];
        }
      }
    }
  }

  lemma EnrollKeepsOnePerTrip(s: Ledger, id: Id, e: Enrollment)
    requires OnePerTrip(s.maps, s.enrollments) && e.mapping in s.maps
    requires !EnrolledFor(s, e.student, s.maps[e.mapping].event)
    ensures OnePerTrip(s.maps, s.enrollments[id := e])
  {
    forall f | f in s.enrollments && s.enrollments[f].student == e.student && s.enrollments[f].mapping in s.maps
      ensures s.maps[s.enrollments[f].mapping].event != s.maps[e.mapping].event
    {
      assert !ForEvent(s.maps, s.enrollments[f].mapping, s.maps[e.mapping].event);
    }
  }

  lemma EnrollIsLogged(s: Ledger, actor: Actor, student: Id, mapping: Id)
    requires Logged(s.enrollments, s.logs) && s.nextId !in s.enrollments
    ensures var t := Enroll(s, actor, student, mapping); Logged(t.enrollments, t.logs)
  {
  }

  lemma DecideKeepsInv(s: Ledger, actor: Actor, id: Id, target: Stage)
    requires Sound(s)
    ensures Sound(Decide(s, actor, id, target))
  {
    var t := Decide(s, actor, id, target);
    if DecideError(s, actor, id, target).None? {
      assert t.enrollments.Keys == s.enrollments.Keys;
      var log, log' := s.logs[id], t.logs[id];
      assert Lawful(log, s.enrollments[id].stage);
      assert log' == log + [log'[|log|]] && DecidedAt(log', |log|);
      forall i | 0 < i < |log| ensures DecidedAt(log', i) {
        assert DecidedAt(log, i);
      }
      assert Lawful(log', target);
    }
  }

  /** Enrollments may disappear and mappings be repriced without two of a student's enrollments
      coming to share a trip. */
  lemma OnePerTripStays(maps: map<Id, Mapping>, maps': map<Id, Mapping>,
                        enrollments: map<Id, Enrollment>, enrollments': map<Id, Enrollment>)
    requires OnePerTrip(maps, enrollments)
    requires forall e :: e in enrollments' ==> e in enrollments && enrollments'[e] == enrollments[e]
    requires forall e :: e in enrollments' ==> enrollments'[e].mapping in maps
    requires forall m :: m in maps && m in maps' ==> maps'[m].event == maps[m].event
    ensures OnePerTrip(maps', enrollments')
  {
    forall e, f | e in enrollments' && f in enrollments'
      && SameTrip(maps', enrollments'[e], enrollments'[f]) ensures e == f {
      assert SameTrip(maps, enrollments[e], enrollments[f]);
    }
  }

  lemma MarkingKeepsPayments(enrollments: map<Id, Enrollment>, payments: map<Id, Payment>, terms: map<Id, Terms>,
                             id: Id)
    requires PaymentsMatch(enrollments, payments, terms)
    ensures PaymentsMatch(enrollments, MarkedPaid(payments, id), terms)
  {
    var payments' := MarkedPaid(payments, id);
    forall p | p in payments' ensures Priced(payments'[p], terms) {
      assert Priced(payments[p], terms);
    }
    forall e | e in terms ensures Billed(payments', terms, e) {
      assert Billed(payments, terms, e);
      MarkingKeepsOwner(payments, id, e);
    }
  }

  lemma MarkingKeepsOwner(payments: map<Id, Payment>, id: Id, e: Id)
    ensures HasPayment(payments, e) ==> HasPayment(MarkedPaid(payments, id), e)
  {
    if p :| p in payments && payments[p].enrollment == e {
      assert p in MarkedPaid(payments, id) && MarkedPaid(payments, id)[p].enrollment == e;
    }
  }

  lemma PayKeepsInv(s: Ledger, role: string, id: Id)
    requires Sound(s)
    ensures Sound(Pay(s, role, id))
  {
    MarkingKeepsPayments(s.enrollments, s.payments, s.terms, id);
    assert IdsBelow(s.events, s.maps, s.enrollments, MarkedPaid(s.payments, id), s.nextId);
  }

  lemma RemovingKeepsPayments(s: Ledger, gone: set<Id>)
    requires PaymentsMatch(s.enrollments, s.payments, s.terms)
    ensures var t := WithoutEnrollments(s, gone); PaymentsMatch(t.enrollments, t.payments, t.terms)
  {
    var t := WithoutEnrollments(s, gone);
    forall p | p in t.payments ensures Priced(t.payments[p], t.terms) {
      assert Priced(s.payments[p], s.terms);
    }
    forall e | e in t.terms ensures Billed(t.payments, t.terms, e) {
      assert Billed(s.payments, s.terms, e);
      if p :| p in s.payments && s.payments[p].enrollment == e {
        assert p in t.payments && t.payments[p].enrollment == e;
      }
    }
  }

  lemma RemovingKeepsInv(s: Ledger, gone: set<Id>)
    requires Sound(s)
    ensures Sound(WithoutEnrollments(s, gone))
  {
    var t := WithoutEnrollments(s, gone);
    RemovingKeepsPayments(s, gone);
    OnePerTripStays(s.maps, t.maps, s.enrollments, t.enrollments);
    assert IdsBelow(t.events, t.maps, t.enrollments, t.payments, t.nextId);
    assert Logged(t.enrollments, t.logs);
  }

  lemma DeleteEventKeepsInv(s: Ledger, event: Id)
    requires Sound(s)
    ensures Sound(DeleteEvent(s, event))
  {
    var t, u := WithoutEnrollments(s, EnrollmentsFor(s, event)), DeleteEvent(s, event);
    RemovingKeepsInv(s, EnrollmentsFor(s, event));
    assert u == t.(events := u.events, maps := u.maps);
    OnePerTripStays(t.maps, u.maps, t.enrollments, u.enrollments);
    forall e | e in u.enrollments
      ensures u.enrollments[e].mapping in u.maps && u.maps[u.enrollments[e].mapping] == s.maps[u.enrollments[e].mapping]
    {
      assert e in s.enrollments && !ForEvent(s.maps, s.enrollments[e].mapping, event);
    }
    assert OnPublishedTrips(u.events, u.maps, u.enrollments);
    assert IdsBelow(u.events, u.maps, u.enrollments, u.payments, u.nextId);
  }

  lemma DeleteClassKeepsInv(s: Ledger, class_: Id)
    requires Sound(s)
    ensures Sound(DeleteClass(s, class_))
  {
    var t := DeleteClass(s, class_);
    if !ClassHasHistory(s, class_) {
      forall e | e in s.enrollments ensures s.enrollments[e].mapping in t.maps {
        assert s.maps[s.enrollments[e].mapping].class_ != class_;
      }
      OnePerTripStays(s.maps, t.maps, s.enrollments, t.enrollments);
      assert OnPublishedTrips(t.events, t.maps, t.enrollments);
      assert IdsBelow(t.events, t.maps, t.enrollments, t.payments, t.nextId);
    }
  }

  lemma TripRequestKeepsInv(s: Ledger, event: Id, request: Request, now: Time)
    requires Sound(s) && event in s.events
    ensures Sound(ChangeTrips(s, TripRequest(event, request, now)))
  {
    var trip := State(s.events[event], now, []);
    var next := Next(trip, request).event;
    if s.events[event].status.Published? {
      PublishedIsTerminal(trip, [request]);
      assert After(Next(trip, request), [request][1..]) == Next(trip, request);
    }
    assert OnPublishedTrips(s.events[event := next], s.maps, s.enrollments);
    assert IdsBelow(s.events[event := next], s.maps, s.enrollments, s.payments, s.nextId);
  }

  lemma MapClassKeepsInv(s: Ledger, event: Id, class_: Id, price: int)
    requires Sound(s) && event in s.events
    ensures Sound(ChangeTrips(s, MapClass(event, class_, price)))
  {
    var t := ChangeTrips(s, MapClass(event, class_, price));
    assert s.nextId !in s.maps;
    OnePerTripStays(s.maps, t.maps, s.enrollments, t.enrollments);
    assert OnPublishedTrips(t.events, t.maps, t.enrollments);
    assert IdsBelow(t.events, t.maps, t.enrollments, t.payments, t.nextId);
  }

  lemma RepriceKeepsInv(s: Ledger, mapping: Id, price: int)
    requires Sound(s) && mapping in s.maps
    ensures Sound(ChangeTrips(s, Reprice(mapping, price)))
  {
    var t := ChangeTrips(s, Reprice(mapping, price));
    OnePerTripStays(s.maps, t.maps, s.enrollments, t.enrollments);
    assert OnPublishedTrips(t.events, t.maps, t.enrollments);
    assert IdsBelow(t.events, t.maps, t.enrollments, t.payments, t.nextId);
  }

  lemma CreateTripKeepsInv(s: Ledger, creator: Id)
    requires Sound(s)
    ensures Sound(ChangeTrips(s, CreateTrip(creator)))
  {
    var t := ChangeTrips(s, CreateTrip(creator));
    assert s.nextId !in s.events;
    assert OnPublishedTrips(t.events, t.maps, t.enrollments);
    assert IdsBelow(t.events, t.maps, t.enrollments, t.payments, t.nextId);
  }

  lemma TripsKeepInv(s: Ledger, change: TripChange)
    requires Sound(s)
    ensures Sound(ChangeTrips(s, change))
  {
    match change
    case TripRequest(event, request, now) => if event in s.events { TripRequestKeepsInv(s, event, request, now); }
    case MapClass(event, class_, price) => if event in s.events { MapClassKeepsInv(s, event, class_, price); }
    case Reprice(mapping, price) => if mapping in s.maps { RepriceKeepsInv(s, mapping, price); }
    case CreateTrip(creator) => CreateTripKeepsInv(s, creator);
  }

  lemma PeopleKeepInv(s: Ledger, change: Change)
    requires Sound(s)
    ensures Sound(ChangePeople(s, change))
  {
    match change
    case MoveStudent(student, to) =>
      PeopleDoNotMatter(s, s.students[student := to], s.links, s.teachers, s.parents, s.currencyRequired);
    case SetLink(student, parent, link) =>
      var links := if link.Some? then s.links[(student, parent) := link.value] else s.links - {(student, parent)};
      PeopleDoNotMatter(s, s.students, links, s.teachers, s.parents, s.currencyRequired);
    case Register(person, asTeacher) =>
      if asTeacher {
        PeopleDoNotMatter(s, s.students, s.links, s.teachers + {person}, s.parents, s.currencyRequired);
      } else {
        PeopleDoNotMatter(s, s.students, s.links, s.teachers, s.parents + {person}, s.currencyRequired);
      }
    case RequireCurrency => PeopleDoNotMatter(s, s.students, s.links, s.teachers, s.parents, true);
  }

  lemma PeopleDoNotMatter(s: Ledger, students: map<Id, Option<Id>>, links: map<(Id, Id), bool>,
                          teachers: set<Id>, parents: set<Id>, currencyRequired: bool)
    requires Sound(s)
    ensures Sound(s.(students := students, links := links, teachers := teachers, parents := parents,
                     currencyRequired := currencyRequired))
  {
  }

  lemma ApplyKeepsInv(s: Ledger, step: Step)
    requires Sound(s)
    ensures Sound(Apply(s, step))
  {
    match step
    case EnrollStudent(actor, student, mapping) => EnrollKeepsInv(s, actor, student, mapping);
    case DecideEnrollment(actor, id, target) => DecideKeepsInv(s, actor, id, target);
    case PayEnrollment(role, id) => PayKeepsInv(s, role, id);
    case CancelEnrollment(actor, id) => if CancelError(s, actor, id).None? { RemovingKeepsInv(s, {id}); }
    case RemoveEvent(event) => DeleteEventKeepsInv(s, event);
    case RemoveClass(class_) => DeleteClassKeepsInv(s, class_);
    case OnTrips(change) => TripsKeepInv(s, change);
    case OnPeople(change) => PeopleKeepInv(s, change);
  }

  lemma {:induction false} RunKeepsLedger(s: Ledger, steps: seq<Step>)
    requires Sound(s)
    ensures Sound(Run(s, steps))
    decreases |steps|
  {
    if steps != [] {
      ApplyKeepsInv(s, steps[0]);
      RunKeepsLedger(Apply(s, steps[0]), steps[1..]);
    }
  }

  /** Over every run of trip requests, mappings, price changes, class moves, enrollments,
      decisions, payments, cancellations and deletions: a student has at most one enrollment per
      trip, every enrollment's trip is published, and each enrollment has exactly one payment, of
      the price it was made at, if it was billable then, and none otherwise. */
  lemma ReachableLedgers(s: Ledger, steps: seq<Step>)
    requires Fresh(s)
    ensures var t := Run(s, steps);
      && OnPublishedTrips(t.events, t.maps, t.enrollments)
      && OnePerTrip(t.maps, t.enrollments)
      && PaymentsMatch(t.enrollments, t.payments, t.terms)
      && Logged(t.enrollments, t.logs)
  {
    RunKeepsLedger(s, steps);
  }

  // ------------------------------------------------------------------
  // When an enrollment is billed
  // ------------------------------------------------------------------

  /** An enrollment has a payment exactly if its price was positive: this holds if and only if
      the price was not positive, or `payments.currency` was still optional. */
  lemma WhenPricedMeansBilled(s: Ledger, steps: seq<Step>, e: Id)
    requires Fresh(s) && e in Run(s, steps).enrollments
    ensures var t := Run(s, steps);
      e in t.terms && ((HasPayment(t.payments, e) <==> t.terms[e].price > 0) <==>
        (t.terms[e].price > 0 ==> !t.terms[e].currencyRequired))
  {
    ReachableLedgers(s, steps);
    var t := Run(s, steps);
    assert Billed(t.payments, t.terms, e);
    if p :| p in t.payments && t.payments[p].enrollment == e {
      assert Priced(t.payments[p], t.terms);
    }
  }

  /** Enrolling on a priced trip once the currency is required: the request fails, the student
      is enrolled all the same, and repeating the request succeeds without a payment. */
  lemma FailedButEnrolled(s: Ledger, actor: Actor, student: Id, mapping: Id)
    requires Sound(s) && EnrollAnswer(s, actor, student, mapping) == Some(CurrencyMissing)
    ensures var t := Enroll(s, actor, student, mapping);
      && EnrolledOn(t, student, mapping) && t.payments == s.payments
      && EnrollAnswer(t, actor, student, mapping).None? && Enroll(t, actor, student, mapping) == t
  {
    var t := Enroll(s, actor, student, mapping);
    assert t.enrollments[s.nextId].student == student && t.enrollments[s.nextId].mapping == mapping;
    assert ForEvent(t.maps, t.enrollments[s.nextId].mapping, t.maps[mapping].event);
    assert EnrolledFor(t, student, t.maps[mapping].event);
  }

  /** On a database that requires the currency from the start, nobody is ever billed. */
  lemma {:induction false} NobodyIsBilled(s: Ledger, steps: seq<Step>)
    requires s.currencyRequired && s.payments == map[]
    ensures Run(s, steps).currencyRequired && Run(s, steps).payments == map[]
    decreases |steps|
  {
    if steps != [] {
      NoBillFromStep(s, steps[0]);
      NobodyIsBilled(Apply(s, steps[0]), steps[1..]);
    }
  }

  lemma NoBillFromStep(s: Ledger, step: Step)
    requires s.currencyRequired && s.payments == map[]
    ensures Apply(s, step).currencyRequired && Apply(s, step).payments == map[]
  {
    match step
    case EnrollStudent(_, _, _) =>
    case DecideEnrollment(_, _, _) =>
    case PayEnrollment(_, id) => assert MarkedPaid(s.payments, id) == map[];
    case CancelEnrollment(_, id) => assert WithoutEnrollments(s, {id}).payments == map[];
    case RemoveEvent(event) => assert WithoutEnrollments(s, EnrollmentsFor(s, event)).payments == map[];
    case RemoveClass(_) =>
    case OnTrips(change) => TripsKeepMoney(s, change);
    case OnPeople(change) => PeopleKeepMoney(s, change);
  }

  lemma TripsKeepMoney(s: Ledger, change: TripChange)
    ensures ChangeTrips(s, change).payments == s.payments
      && ChangeTrips(s, change).currencyRequired == s.currencyRequired
  {
  }

  lemma PeopleKeepMoney(s: Ledger, change: Change)
    ensures ChangePeople(s, change).payments == s.payments
      && (s.currencyRequired ==> ChangePeople(s, change).currencyRequired)
  {
    match change
    case MoveStudent(student, to) =>
      assert ChangePeople(s, change) == s.(students := s.students[student := to]);
    case SetLink(student, parent, link) =>
      var links := if link.Some? then s.links[(student, parent) := link.value] else s.links - {(student, parent)};
      assert ChangePeople(s, change) == s.(links := links);
    case Register(person, asTeacher) =>
      assert ChangePeople(s, change) ==
             if asTeacher then s.(teachers := s.teachers + {person}) else s.(parents := s.parents + {person});
    case RequireCurrency =>
      assert ChangePeople(s, change) == s.(currencyRequired := true);
  }

  // ------------------------------------------------------------------
  // Decisions
  // ------------------------------------------------------------------

  function Rank(stage: Stage): nat {
    match stage
    case Requested => 0
    case ApprovedByParent => 1
    case RejectedByParent => 1
    case ApprovedByTeacher => 2
    case RejectedByTeacher => 2
  }

  /** Every decision moves an enrollment up, so there are at most two. */
  lemma {:induction false} AtMostTwoDecisions(log: seq<Act>, stage: Stage)
    requires Lawful(log, stage)
    ensures |log| - 1 <= Rank(stage) - Rank(log[0].stage) <= 2
    decreases |log|
  {
    if |log| > 1 {
      var init := log[..|log| - 1];
      forall i | 0 < i < |init| ensures DecidedAt(init, i) {
        assert DecidedAt(log, i);
      }
      assert DecidedAt(log, |log| - 1);
      AtMostTwoDecisions(init, log[|log| - 2].stage);
    }
  }

  /** A teacher's approval is either a direct enrollment, or the trip's creator confirming what a
      parent, allowed to approve at that moment, approved by enrolling or by deciding. */
  lemma TeacherApprovalProvenance(log: seq<Act>)
    requires Lawful(log, ApprovedByTeacher)
    ensures var last := |log| - 1;
      || (last == 0 && "teacher" in log[0].actor.grants)
      || (last > 0 && "teacher" in log[last].actor.grants && log[last].createdTrip
          && log[last - 1].stage.ApprovedByParent? && "parent" in log[last - 1].actor.grants
          && log[last - 1].mayApprove)
  {
    var last := |log| - 1;
    if last > 0 {
      assert DecidedAt(log, last);
      if last > 1 {
        assert DecidedAt(log, last - 1);
      }
    }
  }

  /** A new enrollment lands directly on a teacher's approval exactly when the caller holds the
      teacher role and is not, as a parent, linked to the student. No class roster is consulted. */
  lemma WhenEnrollingIsApproval(s: Ledger, actor: Actor, student: Id, mapping: Id)
    requires EnrollError(s, actor, student, mapping).None? && !EnrolledFor(s, student, s.maps[mapping].event)
    ensures var t := Enroll(s, actor, student, mapping);
      && s.nextId in t.enrollments && t.enrollments[s.nextId].student == student
      && (t.enrollments[s.nextId].stage.ApprovedByTeacher? <==>
            "teacher" in actor.grants && !("parent" in actor.grants && (student, actor.id) in s.links))
      && (t.enrollments[s.nextId].stage.ApprovedByTeacher? ==> t.enrollments[s.nextId].teacher == Some(actor.id))
  {
  }

  /** One trip request on one event. */
  function AfterRequest(e: Event, request: Request): Event { Next(State(e, 0, []), request).event }

  ghost predicate IsAdmin(actor: Actor) { "school_admin" in actor.roles && "school_admin" in actor.grants }

  lemma AdminMay(admin: Actor, a: Action, role: string)
    requires IsAdmin(admin)
    ensures Authorised(admin, a, role)
  {
    assert "school_admin" in
      admin.roles * (ADMINS + {role} + (if role == "teacher" then {"event_teacher"} else {}) + Permissions(a));
  }

  lemma AdminSubmits(e: Event, admin: Actor)
    requires e.status.Draft? && e.classes != [] && IsAdmin(admin)
    ensures AfterRequest(e, Submit(admin)).status.Proposed? && AfterRequest(e, Submit(admin)).classes == e.classes
  {
    assert "school_admin" in admin.grants * {"teacher", "school_admin", "event:submit"};
    forall a, role ensures Authorised(admin, a, role) { AdminMay(admin, a, role); }
  }

  lemma AdminApproves(e: Event, admin: Actor)
    requires e.status.Proposed? && IsAdmin(admin)
    ensures AfterRequest(e, ManagerDecision(admin, true, None)).status.Approved?
  {
    assert "school_admin" in admin.roles * ADMINS;
    forall a, role ensures Authorised(admin, a, role) { AdminMay(admin, a, role); }
  }

  lemma AdminPublishes(e: Event, admin: Actor)
    requires e.status.Approved? && IsAdmin(admin)
    ensures AfterRequest(e, PublishTrip(admin)).status.Published?
  {
    assert "school_admin" in admin.grants * PUBLISHERS;
    forall a, role ensures Authorised(admin, a, role) { AdminMay(admin, a, role); }
  }

  lemma {:induction false} RunConcat(s: Ledger, a: seq<Step>, b: seq<Step>)
    ensures Run(s, a + b) == Run(Run(s, a), b)
    decreases |a|
  {
    if a == [] {
      assert a + b == b;
    } else {
      assert (a + b)[1..] == a[1..] + b;
      RunConcat(Apply(s, a[0]), a[1..], b);
    }
  }

  lemma RunOne(s: Ledger, step: Step)
    ensures Run(s, [step]) == Apply(s, step)
  {
    assert Run(Apply(s, step), [step][1..]) == Apply(s, step);
  }

  function OnTrip(event: Id, request: Request): Step { OnTrips(TripRequest(event, request, 0)) }

  lemma OnOneTrip(s: Ledger, event: Id, request: Request)
    requires event in s.events
    ensures Apply(s, OnTrip(event, request)) == s.(events := s.events[event := AfterRequest(s.events[event], request)])
  {
  }

  /** An administrator takes a draft with a class all the way. */
  lemma AdminPublishesTrip(s: Ledger, event: Id, admin: Actor) returns (steps: seq<Step>)
    requires event in s.events && s.events[event].status.Draft? && s.events[event].classes != [] && IsAdmin(admin)
    ensures var t := Run(s, steps);
      event in t.events && t == s.(events := t.events) && t.events[event].status.Published?
  {
    var submit, approve, publish := Submit(admin), ManagerDecision(admin, true, None), PublishTrip(admin);
    var a, b, c := OnTrip(event, submit), OnTrip(event, approve), OnTrip(event, publish);
    var s1 := Apply(s, a);
    OnOneTrip(s, event, submit);
    AdminSubmits(s.events[event], admin);
    var s2 := Apply(s1, b);
    OnOneTrip(s1, event, approve);
    AdminApproves(s1.events[event], admin);
    OnOneTrip(s2, event, publish);
    AdminPublishes(s2.events[event], admin);
    steps := [a] + ([b] + [c]);
    RunConcat(s, [a], [b] + [c]);
    RunOne(s, a);
    RunConcat(s1, [b], [c]);
    RunOne(s1, b);
    RunOne(s2, c);
  }

  /** A trip for class 10 whose only student is 5. */
  lemma SomeTripForClassTen(teacher: Id) returns (s: Ledger, steps: seq<Step>)
    ensures Fresh(s)
    ensures var t := Run(s, steps);
      && t.students == map[5 := Some(10)] && t.links == map[] && t.teachers == {teacher} && t.enrollments == map[]
      && t.maps == map[2 := Mapping(1, 10, 0)] && 1 in t.events && t.events[1].status.Published?
  {
    s := Ledger(map[], map[], map[5 := Some(10)], map[], {teacher}, {}, map[], map[], map[], map[], false, 1);
    var a, b := OnTrips(CreateTrip(1)), OnTrips(MapClass(1, 10, 0));
    var s1 := Apply(s, a);
    RunOne(s, a);
    RunConcat(s, [a], [b]);
    RunOne(s1, b);
    var s2 := Apply(s1, b);
    var more := AdminPublishesTrip(s2, 1, Actor(1, {"school_admin"}, {"school_admin"}));
    RunConcat(s, [a] + [b], more);
    steps := ([a] + [b]) + more;
  }

  /** So any teacher at all can enroll a student with a teacher's approval: a run on which that
      happens, whichever teacher it is. */
  lemma AnyTeacherEnrolls(teacher: Id)
    ensures exists s: Ledger, steps: seq<Step>, id: Id ::
      && Fresh(s)
      && var t := Run(s, steps);
         id in t.enrollments && t.enrollments[id].stage.ApprovedByTeacher? && t.enrollments[id].teacher == Some(teacher)
  {
    var s, steps := SomeTripForClassTen(teacher);
    var e := Run(s, steps);
    var a := EnrollStudent(Actor(teacher, {"teacher"}, {"teacher"}), 5, 2);
    assert EnrollError(e, a.actor, 5, 2).None? && !EnrolledFor(e, 5, 1);
    WhenEnrollingIsApproval(e, a.actor, 5, 2);
    RunConcat(s, steps, [a]);
    RunOne(e, a);
    assert e.nextId in Run(s, steps + [a]).enrollments;
  }

  /** The recorded parent survives a teacher's decision exactly when the teacher does not also
      hold the parent role, or is that parent. */
  lemma WhenTheParentIsOverwritten(s: Ledger, actor: Actor, id: Id, target: Stage)
    requires DecideError(s, actor, id, target).None? && !ParentDecision(s, actor, s.enrollments[id])
    ensures Decide(s, actor, id, target).enrollments[id].parent == s.enrollments[id].parent <==>
            "parent" !in actor.grants || s.enrollments[id].parent == Some(actor.id)
  {
  }

  // ------------------------------------------------------------------
  // Money
  // ------------------------------------------------------------------

  function PaidAmounts(payments: map<Id, Payment>): map<Id, int> {
    map p | p in payments && payments[p].paid :: payments[p].amount
  }

  ghost function Total(amounts: map<Id, int>): int {
    if |amounts| == 0 then 0
    else
      assert (forall p :: p !in amounts) ==> amounts == map[];
      var p :| p in amounts; amounts[p] + Total(amounts - {p})
  }

  lemma {:induction false} TotalWithout(amounts: map<Id, int>, p: Id)
    requires p in amounts
    ensures Total(amounts) == amounts[p] + Total(amounts - {p})
    decreases |amounts|
  {
    var q :| q in amounts && Total(amounts) == amounts[q] + Total(amounts - {q});
    if q != p {
      TotalWithout(amounts - {q}, p);
      TotalWithout(amounts - {p}, q);
      assert amounts - {q} - {p} == amounts - {p} - {q};
    }
  }

  ghost predicate Within(less: map<Id, int>, more: map<Id, int>) {
    forall p :: p in less ==> p in more && more[p] == less[p]
  }

  ghost predicate Positive(amounts: map<Id, int>) { forall p :: p in amounts ==> amounts[p] > 0 }

  /** Adding positive amounts raises the total. */
  lemma {:induction false} MoreIsMore(less: map<Id, int>, more: map<Id, int>)
    requires Within(less, more) && Positive(more)
    ensures Total(less) <= Total(more)
    ensures Total(less) == Total(more) ==> less == more
    decreases |more|
  {
    if |more| == 0 {
      assert (forall p :: p !in less) ==> less == map[];
    } else {
      assert (forall p :: p !in more) ==> more == map[];
      var p :| p in more;
      WithinWithout(less, more, p);
      MoreIsMore(less - {p}, more - {p});
      TotalWithout(more, p);
      if p in less {
        TotalWithout(less, p);
        SameWithout(less, more, p);
      } else {
        assert less - {p} == less;
      }
    }
  }

  lemma WithinWithout(less: map<Id, int>, more: map<Id, int>, p: Id)
    requires Within(less, more) && Positive(more)
    ensures Within(less - {p}, more - {p}) && Positive(more - {p})
  {
  }

  lemma SameWithout(less: map<Id, int>, more: map<Id, int>, p: Id)
    requires p in less && p in more && less[p] == more[p]
    ensures less - {p} == more - {p} ==> less == more
  {
    if less - {p} == more - {p} {
      forall q ensures q in less <==> q in more {
        assert q != p ==> (q in less <==> q in less - {p}) && (q in more <==> q in more - {p});
      }
      forall q | q in less ensures less[q] == more[q] {
        assert q != p ==> less[q] == (less - {p})[q] && more[q] == (more - {p})[q];
      }
    }
  }

  lemma PaidArePositive(s: Ledger)
    requires Sound(s)
    ensures forall p :: p in PaidAmounts(s.payments) ==> PaidAmounts(s.payments)[p] > 0
  {
    forall p | p in s.payments ensures s.payments[p].amount > 0 {
      assert Priced(s.payments[p], s.terms);
    }
  }

  ghost predicate PaymentsKept(s: Ledger, t: Ledger) {
    forall p :: p in s.payments && s.payments[p].paid ==> p in t.payments && t.payments[p] == s.payments[p]
  }

  /** No step but the deletion of a trip removes or changes a paid payment. */
  lemma PaidPaymentsStay(s: Ledger, step: Step)
    requires Sound(s) && !step.RemoveEvent?
    ensures PaymentsKept(s, Apply(s, step))
  {
    match step
    case CancelEnrollment(actor, id) => assert CancelError(s, actor, id).None? ==> !HasPaid(s.payments, id);
    case OnTrips(change) => TripsKeepMoney(s, change);
    case OnPeople(change) => PeopleKeepMoney(s, change);
    case _ =>
  }

  /** A paid enrollment of the trip exists. */
  predicate PaidFor(s: Ledger, event: Id) {
    exists p :: p in s.payments && s.payments[p].paid && s.payments[p].enrollment in EnrollmentsFor(s, event)
  }

  lemma DeletingLosesWhatWasPaid(s: Ledger, event: Id)
    requires Sound(s)
    ensures Total(PaidAmounts(DeleteEvent(s, event).payments)) < Total(PaidAmounts(s.payments)) <==> PaidFor(s, event)
  {
    var before, after := PaidAmounts(s.payments), PaidAmounts(DeleteEvent(s, event).payments);
    PaidArePositive(s);
    MoreIsMore(after, before);
    if PaidFor(s, event) {
      var p :| p in s.payments && s.payments[p].paid && s.payments[p].enrollment in EnrollmentsFor(s, event);
      assert p in before && p !in after;
    } else {
      NothingPaidIsLost(s, event);
    }
  }

  lemma NothingPaidIsLost(s: Ledger, event: Id)
    requires !PaidFor(s, event)
    ensures PaidAmounts(DeleteEvent(s, event).payments) == PaidAmounts(s.payments)
  {
    var before, after := PaidAmounts(s.payments), PaidAmounts(DeleteEvent(s, event).payments);
    forall p | p in before ensures p in after {
      assert s.payments[p].paid && s.payments[p].enrollment !in EnrollmentsFor(s, event);
    }
  }

  /** The total paid drops exactly when a trip with a paid enrollment is deleted. */
  lemma WhenMoneyIsLost(s: Ledger, step: Step)
    requires Sound(s)
    ensures Total(PaidAmounts(Apply(s, step).payments)) < Total(PaidAmounts(s.payments)) <==>
            step.RemoveEvent? && PaidFor(s, step.event)
  {
    if step.RemoveEvent? {
      DeletingLosesWhatWasPaid(s, step.event);
    } else {
      var t := Apply(s, step);
      ApplyKeepsInv(s, step);
      PaidArePositive(t);
      PaidPaymentsStay(s, step);
      MoreIsMore(PaidAmounts(s.payments), PaidAmounts(t.payments));
    }
  }

  /** So over every run without such a deletion the total paid never decreases. */
  lemma {:induction false} PaidNeverDecreases(s: Ledger, steps: seq<Step>)
    requires Sound(s) && forall i :: 0 <= i < |steps| ==> !steps[i].RemoveEvent?
    ensures PaymentsKept(s, Run(s, steps))
    ensures Total(PaidAmounts(s.payments)) <= Total(PaidAmounts(Run(s, steps).payments))
    decreases |steps|
  {
    if steps != [] {
      var t := Apply(s, steps[0]);
      ApplyKeepsInv(s, steps[0]);
      PaidPaymentsStay(s, steps[0]);
      WhenMoneyIsLost(s, steps[0]);
      PaidNeverDecreases(t, steps[1..]);
    }
  }

  /** A class deletion, unlike a trip's, never costs an enrollment or a payment. */
  lemma ClassDeletionKeepsHistory(s: Ledger, class_: Id)
    ensures DeleteClass(s, class_).enrollments == s.enrollments && DeleteClass(s, class_).payments == s.payments
  {
  }

  /** Cancelling a fresh enrollment puts the ledger back as it was. */
  lemma CancelUndoesEnroll(s: Ledger, actor: Actor, student: Id, mapping: Id, canceller: Actor)
    requires Sound(s) && EnrollError(s, actor, student, mapping).None?
      && !EnrolledFor(s, student, s.maps[mapping].event)
    requires CancelError(Enroll(s, actor, student, mapping), canceller, s.nextId) != Some(NotPermitted)
    ensures Cancel(Enroll(s, actor, student, mapping), canceller, s.nextId) == s.(nextId := s.nextId + 2)
  {
    var t := Enroll(s, actor, student, mapping);
    RemovingTheNewRow(s, actor, t.enrollments[s.nextId]);
    NewRowIsUnpaid(s, actor, t.enrollments[s.nextId]);
  }

  lemma NewRowIsUnpaid(s: Ledger, actor: Actor, e: Enrollment)
    requires Sound(s) && e.mapping in s.maps && s.maps[e.mapping].event in s.events
    ensures !HasPaid(WithRow(s, actor, e).payments, s.nextId)
  {
    var t := WithRow(s, actor, e);
    assert s.nextId !in s.terms;
    forall p | p in t.payments ensures !(t.payments[p].enrollment == s.nextId && t.payments[p].paid) {
      assert p in s.payments ==> Priced(s.payments[p], s.terms);
    }
  }

  lemma RemovingTheNewRow(s: Ledger, actor: Actor, e: Enrollment)
    requires Sound(s) && e.mapping in s.maps && s.maps[e.mapping].event in s.events
    ensures WithoutEnrollments(WithRow(s, actor, e), {s.nextId}) == s.(nextId := s.nextId + 2)
  {
    var id := s.nextId;
    assert id !in s.enrollments && id !in s.terms && id !in s.logs && id + 1 !in s.payments;
    OldPaymentsAreOfOthers(s, id);
    RemovingTheNewPayment(s.payments, id, Payment(id, s.maps[e.mapping].price, false));
    var u := WithoutEnrollments(WithRow(s, actor, e), {id});
    assert u.enrollments == s.enrollments && u.logs == s.logs && u.terms == s.terms;
  }

  lemma OldPaymentsAreOfOthers(s: Ledger, id: Id)
    requires Sound(s) && id !in s.enrollments
    ensures forall p :: p in s.payments ==> s.payments[p].enrollment != id
  {
    forall p | p in s.payments ensures s.payments[p].enrollment != id {
      assert Priced(s.payments[p], s.terms);
    }
  }

  lemma RemovingTheNewPayment(payments: map<Id, Payment>, id: Id, new_: Payment)
    requires id + 1 !in payments && new_.enrollment == id
    requires forall p :: p in payments ==> payments[p].enrollment != id
    ensures PaymentsWithout(payments, {id}) == payments
    ensures PaymentsWithout(payments[id + 1 := new_], {id}) == payments
  {
    var more := payments[id + 1 := new_];
    assert forall p :: p in more && more[p].enrollment !in {id} <==> p in payments;
    assert forall p :: p in payments && payments[p].enrollment !in {id} <==> p in payments;
    assert PaymentsWithout(more, {id}) == payments;
    assert PaymentsWithout(payments, {id}) == payments;
  }

  // ------------------------------------------------------------------
  // What each request does
  // ------------------------------------------------------------------

  /** The stage and the deciders a caller's role gives a new enrollment: a linked parent's word
      counts if it may, an unlinked one's never; then a teacher's; anybody else only asks. */
  lemma FirstStage(links: map<(Id, Id), bool>, actor: Actor, student: Id)
    ensures var row := FirstRow(links, actor, student);
      var linked := "parent" in actor.grants && (student, actor.id) in links;
      && (row.Failure? <==> "parent" in actor.grants && !linked && "teacher" !in actor.grants)
      && (linked && links[(student, actor.id)] ==> row == Success((ApprovedByParent, None, Some(actor.id))))
      && (linked && !links[(student, actor.id)] ==> row == Success((Requested, None, None)))
      && (!linked && "teacher" in actor.grants ==> row == Success((ApprovedByTeacher, Some(actor.id), None)))
      && ("parent" !in actor.grants && "teacher" !in actor.grants ==> row == Success((Requested, None, None)))
  {
  }

  /** A student can be enrolled: the trip behind the mapping is published, the student sits in its
      class and has no enrollment on the trip. */
  ghost predicate CanBeEnrolled(s: Ledger, student: Id, mapping: Id) {
    && mapping in s.maps && s.maps[mapping].event in s.events && s.events[s.maps[mapping].event].status == Published
    && student in s.students && s.students[student] == Some(s.maps[mapping].class_)
    && forall e :: e in s.enrollments && s.enrollments[e].student == student ==>
         !(s.enrollments[e].mapping in s.maps
           && s.maps[s.enrollments[e].mapping].event == s.maps[mapping].event)
  }

  /** Enrolling, table by table: one new row, for exactly this student and mapping, if the student
      can be enrolled and the deciders recorded exist; its payment of the price, unpaid, if there
      is a price and the insert can succeed; nothing else changes, and otherwise nothing at all. */
  lemma EnrollingIsExact(s: Ledger, actor: Actor, student: Id, mapping: Id)
    ensures var t, id := Apply(s, EnrollStudent(actor, student, mapping)), s.nextId;
      var first := FirstRow(s.links, actor, student);
      var enrolls := CanBeEnrolled(s, student, mapping) && first.Success?
        && (first.value.1.Some? ==> first.value.1.value in s.teachers)
        && (first.value.2.Some? ==> first.value.2.value in s.parents);
      && (!enrolls ==> t == s)
      && (enrolls ==>
            && t.enrollments == s.enrollments[id :=
              Enrollment(student, mapping, first.value.0, first.value.1, first.value.2)]
            && t.payments == (if s.maps[mapping].price > 0 && !s.currencyRequired
                              then s.payments[id + 1 := Payment(id, s.maps[mapping].price, false)] else s.payments)
            && t.events == s.events && t.maps == s.maps && t.students == s.students && t.links == s.links
            && t.teachers == s.teachers && t.parents == s.parents)
      && (EnrollAnswer(s, actor, student, mapping).None? <==>
            || (enrolls && (s.maps[mapping].price <= 0 || !s.currencyRequired))
            || (first.Success? && mapping in s.maps && student in s.students
                && s.maps[mapping].event in s.events && s.events[s.maps[mapping].event].status == Published
                && EnrolledOn(s, student, mapping)))
  {
  }

  /** A parent entitled to decide for the student. */
  predicate MayConsent(s: Ledger, actor: Actor, e: Enrollment) {
    "parent" in actor.grants && (e.student, actor.id) in s.links && s.links[(e.student, actor.id)]
  }

  /** An entitled parent answers a request. */
  predicate Consents(s: Ledger, actor: Actor, e: Enrollment, target: Stage) {
    MayConsent(s, actor, e) && e.stage == Requested && target in {ApprovedByParent, RejectedByParent}
      && actor.id in s.parents
  }

  /** The trip's own teacher answers what a parent approved. */
  predicate Confirms(s: Ledger, actor: Actor, e: Enrollment, target: Stage) {
    && !MayConsent(s, actor, e) && "teacher" in actor.grants
    && e.mapping in s.maps && s.maps[e.mapping].event in s.events
    && s.events[s.maps[e.mapping].event].createdBy == actor.id && e.stage == ApprovedByParent
    && target in {ApprovedByTeacher, RejectedByTeacher} && actor.id in s.teachers
    && ("parent" in actor.grants ==> actor.id in s.parents)
  }

  lemma WhoDecides(s: Ledger, actor: Actor, id: Id, target: Stage)
    requires id in s.enrollments && s.enrollments[id].mapping in s.maps
      && s.maps[s.enrollments[id].mapping].event in s.events
    ensures DecideError(s, actor, id, target).None? <==>
      Consents(s, actor, s.enrollments[id], target) || Confirms(s, actor, s.enrollments[id], target)
    ensures ParentDecision(s, actor, s.enrollments[id]) <==> MayConsent(s, actor, s.enrollments[id])
  {
  }

  /** Deciding, column by column: an entitled parent answers a request, the trip's own teacher
      what a parent approved, each in their own words only; the decider is recorded. */
  lemma DecidingIsExact(s: Ledger, actor: Actor, id: Id, target: Stage)
    requires id in s.enrollments && s.enrollments[id].mapping in s.maps
      && s.maps[s.enrollments[id].mapping].event in s.events
    ensures var t, e := Apply(s, DecideEnrollment(actor, id, target)), s.enrollments[id];
      var consents, confirms := Consents(s, actor, e, target), Confirms(s, actor, e, target);
      && (!consents && !confirms ==> t == s)
      && (consents || confirms ==>
            && id in t.enrollments && t.enrollments - {id} == s.enrollments - {id}
            && t.payments == s.payments && t.events == s.events && t.maps == s.maps
            && t.enrollments[id].student == e.student && t.enrollments[id].mapping == e.mapping
            && t.enrollments[id].stage == target)
      && (consents ==> t.enrollments[id].parent == Some(actor.id) && t.enrollments[id].teacher == e.teacher)
      && (confirms ==> t.enrollments[id].teacher == Some(actor.id))
  {
    WhoDecides(s, actor, id, target);
  }

  /** Paying marks the payments of this enrollment paid, for a parent, and leaves every other. */
  lemma PayingIsExact(s: Ledger, role: string, id: Id)
    ensures var t := Apply(s, PayEnrollment(role, id));
      && t == s.(payments := t.payments) && t.payments.Keys == s.payments.Keys
      && forall p :: p in s.payments ==>
           t.payments[p] == if role == "parent" && s.payments[p].enrollment == id
                            then s.payments[p].(paid := true) else s.payments[p]
  {
    if PayError(s, role, id).Some? && role == "parent" {
      assert forall p :: p in s.payments ==> s.payments[p].enrollment != id;
    }
  }

  /** Staff, a parent who may consent, or the student in person. */
  predicate HasTheSay(s: Ledger, actor: Actor, student: Id) {
    || "school_admin" in actor.roles || "teacher" in actor.roles
    || (if "parent" in actor.roles then (student, actor.id) in s.links && s.links[(student, actor.id)]
        else "student" in actor.roles && student == actor.id)
  }

  lemma WhoCancels(s: Ledger, actor: Actor, id: Id)
    requires id in s.enrollments
    ensures CancelError(s, actor, id).None? <==>
      && HasTheSay(s, actor, s.enrollments[id].student)
      && forall p :: p in s.payments && s.payments[p].enrollment == id ==> !s.payments[p].paid
  {
  }

  /** Cancelling removes the enrollment and its payments, and nothing else: for whoever has the
      say, as long as nothing of it is paid. */
  lemma CancellingIsExact(s: Ledger, actor: Actor, id: Id)
    requires id in s.enrollments
    ensures var t := Apply(s, CancelEnrollment(actor, id));
      if HasTheSay(s, actor, s.enrollments[id].student)
         && forall p :: p in s.payments && s.payments[p].enrollment == id ==> !s.payments[p].paid
      then
        && t.enrollments == s.enrollments - {id}
        && (forall p :: p in t.payments <==> p in s.payments && s.payments[p].enrollment != id)
        && (forall p :: p in t.payments ==> t.payments[p] == s.payments[p])
        && t.events == s.events && t.maps == s.maps && t.students == s.students && t.links == s.links
      else t == s
  {
    WhoCancels(s, actor, id);
  }

  /** Somebody is or was enrolled through the class. */
  predicate UsedForEnrollment(s: Ledger, class_: Id, e: Id) {
    e in s.enrollments && s.enrollments[e].mapping in s.maps && s.maps[s.enrollments[e].mapping].class_ == class_
  }

  /** Deleting a class with an enrollment is refused. */
  lemma UsedClassStays(s: Ledger, class_: Id, e: Id)
    requires UsedForEnrollment(s, class_, e)
    ensures Apply(s, RemoveClass(class_)) == s
  {
  }

  /** Deleting any other takes it off its trips and leaves its students without a class;
      enrollments, payments and whatever belongs to other classes stay. */
  lemma DeletingAClassIsExact(s: Ledger, class_: Id)
    requires forall e :: !UsedForEnrollment(s, class_, e)
    ensures var t := Apply(s, RemoveClass(class_));
      && t == s.(maps := t.maps, students := t.students, events := t.events)
      && (forall m :: m in t.maps <==> m in s.maps && s.maps[m].class_ != class_)
      && (forall m :: m in t.maps ==> t.maps[m] == s.maps[m])
      && t.students.Keys == s.students.Keys && t.events.Keys == s.events.Keys
      && (forall x :: x in s.students ==>
            t.students[x] == if s.students[x] == Some(class_) then None else s.students[x])
      && (forall x :: x in s.events ==> t.events[x] == s.events[x].(classes := Without(s.events[x].classes, class_)))
  {
    HistoryMeansUsed(s, class_);
  }

  lemma HistoryMeansUsed(s: Ledger, class_: Id)
    ensures ClassHasHistory(s, class_) ==> exists e :: UsedForEnrollment(s, class_, e)
  {
    if e :| e in s.enrollments && s.enrollments[e].mapping in s.maps
            && s.maps[s.enrollments[e].mapping].class_ == class_ {
      assert UsedForEnrollment(s, class_, e);
    }
  }

  /** And off a trip, once and for all. */
  lemma {:induction false} WithoutIsExact(classes: seq<Id>, class_: Id)
    ensures forall c :: c in Without(classes, class_) <==> c in classes && c != class_
  {
    if classes != [] {
      WithoutIsExact(classes[1..], class_);
      assert classes == [classes[0]] + classes[1..];
    }
  }

  /** A new trip is a draft of its creator's; a mapping adds one class at one price; a new price
      changes that mapping and no enrollment or payment. */
  lemma ArrangingIsExact(s: Ledger, event: Id, x: Id, price: int)
    ensures var t := Apply(s, OnTrips(CreateTrip(x)));
      && t.events == s.events[s.nextId := t.events[s.nextId]] && t.events[s.nextId].status == Draft
      && t.events[s.nextId].createdBy == x && t.events[s.nextId].classes == []
      && t.enrollments == s.enrollments && t.payments == s.payments && t.maps == s.maps
    ensures event in s.events ==>
      var t := Apply(s, OnTrips(MapClass(event, x, price)));
      && t.maps == s.maps[s.nextId := Mapping(event, x, price)] && event in t.events
      && t.events[event].classes == s.events[event].classes + [x]
      && t.events == s.events[event := s.events[event].(classes := t.events[event].classes)]
      && t.enrollments == s.enrollments && t.payments == s.payments
    ensures event in s.maps ==>
      var t := Apply(s, OnTrips(Reprice(event, price)));
      t == s.(maps := s.maps[event := s.maps[event].(price := price)])
  {
  }

  /** Deleting a trip deletes its mappings, its enrollments and their payments, paid ones too, and
      nothing else. */
  lemma DeletingIsExact(s: Ledger, event: Id)
    requires Sound(s)
    ensures var t := Apply(s, RemoveEvent(event));
      && t.events == s.events - {event}
      && (forall m :: m in t.maps <==> m in s.maps && s.maps[m].event != event)
      && (forall m :: m in t.maps ==> t.maps[m] == s.maps[m])
      && (forall e :: e in t.enrollments <==> e in s.enrollments && !ForEvent(s.maps, s.enrollments[e].mapping, event))
      && (forall e :: e in t.enrollments ==> t.enrollments[e] == s.enrollments[e])
      && (forall p :: p in t.payments <==> p in s.payments && s.payments[p].enrollment in t.enrollments)
      && (forall p :: p in t.payments ==> t.payments[p] == s.payments[p])
  {
    forall p | p in s.payments ensures s.payments[p].enrollment in s.enrollments {
      assert Priced(s.payments[p], s.terms);
    }
  }
}

/** The request handlers over the stored tables. */
module LedgerService {
  import opened Wrappers
  import opened TripModel
  import opened LedgerModel

  class Tables {
    var events: map<Id, Event>
    var maps: map<Id, Mapping>
    var students: map<Id, Option<Id>>
    var links: map<(Id, Id), bool>
    var teachers: set<Id>
    var parents: set<Id>
    var enrollments: map<Id, Enrollment>
    var payments: map<Id, Payment>
    var nextId: Id
    ghost var logs: map<Id, seq<Act>>
    ghost var terms: map<Id, Terms>
    var currencyRequired: bool

    ghost function Abs(): Ledger
      reads this
    {
      Ledger(events, maps, students, links, teachers, parents, enrollments, payments, logs, terms, currencyRequired,
             nextId)
    }

    constructor (people: map<Id, Option<Id>>, family: map<(Id, Id), bool>, staff: set<Id>, guardians: set<Id>,
                 migrated: bool)
      ensures Fresh(Abs()) && Sound(Abs())
      ensures students == people && links == family && teachers == staff && parents == guardians
        && currencyRequired == migrated
    {
      events, maps, enrollments, payments, logs, terms, nextId := map[], map[], map[], map[], map[], map[], 1;
      students, links, teachers, parents, currencyRequired := people, family, staff, guardians, migrated;
    }

    /** The handler picks the stage and the recorded deciders, then `enroll_student` checks and
        inserts. */
    method EnrollStudent(actor: Actor, student: Id, mapping: Id) returns (r: Result<Id, Refusal>)
      requires Sound(Abs())
      modifies this
      ensures Abs() == Enroll(old(Abs()), actor, student, mapping)
      ensures var error := EnrollAnswer(old(Abs()), actor, student, mapping);
        if error.Some? then r == Failure(error.value)
        else
          && r.Success? && r.value in enrollments
          && enrollments[r.value].student == student && enrollments[r.value].mapping == mapping
    {
      var stage, teacherId, parentId := Requested, None, None;
      if "parent" in actor.grants {
        parentId := Some(actor.id);
        if (student, actor.id) in links {
          if links[(student, actor.id)] {
            stage := ApprovedByParent;
          } else {
            parentId := None;
          }
        } else if "teacher" in actor.grants {
          stage, teacherId, parentId := ApprovedByTeacher, Some(actor.id), None;
        } else {
          return Failure(NotLinked);
        }
      } else if "teacher" in actor.grants {
        stage, teacherId := ApprovedByTeacher, Some(actor.id);
      }
      assert FirstRow(links, actor, student) == Success((stage, teacherId, parentId));
      r := Insert(actor, student, mapping, stage, teacherId, parentId);
    }

    /** `TenantService.enroll_student`. */
    method Insert(actor: Actor, student: Id, mapping: Id, stage: Stage, teacherId: Option<Id>, parentId: Option<Id>)
      returns (r: Result<Id, Refusal>)
      requires Sound(Abs()) && FirstRow(links, actor, student) == Success((stage, teacherId, parentId))
      modifies this
      ensures Abs() == Enroll(old(Abs()), actor, student, mapping)
      ensures var error := EnrollAnswer(old(Abs()), actor, student, mapping);
        if error.Some? then r == Failure(error.value)
        else
          && r.Success? && r.value in enrollments
          && enrollments[r.value].student == student && enrollments[r.value].mapping == mapping
    {
      if mapping !in maps {
        return Failure(NoMapping);
      }
      var classMap := maps[mapping];
      if classMap.event !in events || !events[classMap.event].status.Published? {
        return Failure(NotPublished);
      }
      if student !in students {
        return Failure(NoStudent);
      }
      var existing := EnrollmentsOf(student, classMap.event);
      if |existing| > 0 {
        r := SameMapping(existing, student, mapping);
        return;
      }
      if students[student] != Some(classMap.class_) {
        return Failure(WrongClass);
      }
      if (teacherId.Some? && teacherId.value !in teachers) || (parentId.Some? && parentId.value !in parents) {
        return Failure(ForeignKey);
      }
      r := Create(actor, Enrollment(student, mapping, stage, teacherId, parentId));
    }

    /** `create_enrollment`, then `create_payment` if the ticket costs anything. */
    method Create(actor: Actor, e: Enrollment) returns (r: Result<Id, Refusal>)
      requires e.mapping in maps && maps[e.mapping].event in events
      modifies this
      ensures Abs() == WithRow(old(Abs()), actor, e)
      ensures r ==
        if old(maps[e.mapping].price > 0 && currencyRequired) then Failure(CurrencyMissing) else Success(old(nextId))
    {
      var id := nextId;
      logs := logs[id := [Act(actor, CanApprove(links, e.student, actor.id),
                              events[maps[e.mapping].event].createdBy == actor.id, e.stage)]];
      terms := terms[id := Terms(maps[e.mapping].price, currencyRequired)];
      enrollments := enrollments[id := e];
      nextId := id + 2;
      r := Success(id);
      if maps[e.mapping].price > 0 {
        if currencyRequired {
          return Failure(CurrencyMissing);
        }
        payments := payments[id + 1 := Payment(id, maps[e.mapping].price, false)];
      }
    }

    /** `get_enrollments_for_student_and_event`. */
    method EnrollmentsOf(student: Id, event: Id) returns (existing: set<Id>)
      ensures forall e :: e in existing <==>
        e in enrollments && enrollments[e].student == student && ForEvent(maps, enrollments[e].mapping, event)
      ensures |existing| > 0 <==> EnrolledFor(Abs(), student, event)
    {
      existing := set e | e in enrollments && enrollments[e].student == student
        && ForEvent(maps, enrollments[e].mapping, event);
      if |existing| > 0 {
        assert (forall e :: e !in existing) ==> existing == {};
        var e :| e in existing;
        assert ForEvent(Abs().maps, Abs().enrollments[e].mapping, event);
      }
    }

    /** Looks for the requested mapping among the student's enrollments on its trip. */
    method SameMapping(existing: set<Id>, student: Id, mapping: Id) returns (r: Result<Id, Refusal>)
      requires mapping in maps
      requires forall e :: e in existing <==>
        e in enrollments && enrollments[e].student == student
          && ForEvent(maps, enrollments[e].mapping, maps[mapping].event)
      ensures match r
        case Success(id) => EnrolledOn(Abs(), student, mapping) && id in existing && enrollments[id].mapping == mapping
        case Failure(error) => !EnrolledOn(Abs(), student, mapping) && error == AlreadyEnrolled
    {
      var todo := existing;
      while |todo| > 0
        invariant todo <= existing && forall e :: e in existing - todo ==> enrollments[e].mapping != mapping
        decreases |todo|
      {
        assert (forall e :: e !in todo) ==> todo == {};
        var e :| e in todo;
        if enrollments[e].mapping == mapping {
          return Success(e);
        }
        todo := todo - {e};
      }
      r := Failure(AlreadyEnrolled);
      assert forall e ::
        e in enrollments && enrollments[e].student == student && enrollments[e].mapping == mapping ==> e in existing;
    }

    /** The decision handler, branch by branch. */
    method UpdateEnrollmentApproval(actor: Actor, id: Id, target: Stage) returns (error: Option<Refusal>)
      requires Sound(Abs())
      modifies `enrollments, `logs
      ensures error == DecideError(old(Abs()), actor, id, target)
      ensures Abs() == Decide(old(Abs()), actor, id, target)
    {
      if id !in enrollments {
        return Some(NoEnrollment);
      }
      var details := enrollments[id];
      var createdBy := events[maps[details.mapping].event].createdBy;
      var teacherId, parentId: Option<Id> := None, None;
      var isParentDecision := false;
      if "parent" in actor.grants {
        parentId := Some(actor.id);
        isParentDecision := CanApprove(links, details.student, actor.id);
      }
      if isParentDecision {
        if !details.stage.Requested? {
          return Some(WrongStage);
        }
        if !target.ApprovedByParent? && !target.RejectedByParent? {
          return Some(BadTarget);
        }
      } else if "teacher" in actor.grants {
        teacherId := Some(actor.id);
        if createdBy != actor.id {
          return Some(NotTripCreator);
        }
        if !details.stage.ApprovedByParent? {
          return Some(WrongStage);
        }
        if !target.ApprovedByTeacher? && !target.RejectedByTeacher? {
          return Some(BadTarget);
        }
      } else {
        return Some(NotPermitted);
      }
      if (teacherId.Some? && teacherId.value !in teachers) || (parentId.Some? && parentId.value !in parents) {
        return Some(ForeignKey);
      }
      logs := logs[id := logs[id] + [Act(actor, CanApprove(links, details.student, actor.id), createdBy == actor.id,
                                         target)]];
      enrollments := enrollments[id := details.(stage := target,
                                                teacher := Coalesce(teacherId, details.teacher),
                                                parent := Coalesce(parentId, details.parent))];
      error := None;
    }

    /** `get_payment_by_enrollment`: some row, of which there is at most one. */
    method PaymentOf(id: Id) returns (payment: Option<Payment>)
      requires Sound(Abs())
      ensures payment.Some? <==> HasPayment(payments, id)
      ensures payment.Some? ==> (payment.value.paid <==> HasPaid(payments, id))
      ensures payment.None? ==> !HasPaid(payments, id)
    {
      var rows := set p | p in payments && payments[p].enrollment == id;
      if |rows| == 0 {
        assert forall p :: p in payments && payments[p].enrollment == id ==> p in rows;
        return None;
      }
      assert (forall p :: p !in rows) ==> rows == {};
      var p :| p in rows;
      payment := Some(payments[p]);
    }

    /** Whether the caller may cancel a student's enrollments. */
    method MayCancel(actor: Actor, student: Id) returns (allowed: bool)
      ensures allowed <==>
        || "school_admin" in actor.roles || "teacher" in actor.roles
        || (if "parent" in actor.roles then CanApprove(links, student, actor.id)
            else "student" in actor.roles && student == actor.id)
    {
      if "school_admin" in actor.roles || "teacher" in actor.roles {
        return true;
      } else if "parent" in actor.roles {
        return CanApprove(links, student, actor.id);
      } else if "student" in actor.roles {
        return student == actor.id;
      }
      allowed := false;
    }

    method CancelEnrollment(actor: Actor, id: Id) returns (error: Option<Refusal>)
      requires Sound(Abs())
      modifies this
      ensures error == CancelError(old(Abs()), actor, id)
      ensures Abs() == Cancel(old(Abs()), actor, id)
    {
      if id !in enrollments {
        return Some(NoEnrollment);
      }
      var allowed := MayCancel(actor, enrollments[id].student);
      if !allowed {
        return Some(NotPermitted);
      }
      var payment := PaymentOf(id);
      if payment.Some? && payment.value.paid {
        return Some(AlreadyPaid);
      }
      Delete(id);
      error := None;
    }

    /** `delete_enrollment`; the payments' foreign key cascades. */
    method Delete(id: Id)
      modifies this
      ensures Abs() == WithoutEnrollments(old(Abs()), {id})
    {
      enrollments, logs, terms := enrollments - {id}, logs - {id}, terms - {id};
      payments := map p | p in payments && payments[p].enrollment !in {id} :: payments[p];
    }

    method PayEnrollment(role: string, id: Id) returns (error: Option<Refusal>)
      requires Sound(Abs())
      modifies `payments
      ensures error == PayError(old(Abs()), role, id)
      ensures Abs() == Pay(old(Abs()), role, id)
    {
      if role != "parent" {
        return Some(NotPermitted);
      }
      var payment := PaymentOf(id);
      if payment.None? {
        return Some(NoPayment);
      }
      payments := map p | p in payments ::
        if payments[p].enrollment == id then payments[p].(paid := true) else payments[p];
      error := None;
    }
  }
}
