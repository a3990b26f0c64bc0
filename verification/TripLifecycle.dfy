/** The trip lifecycle: `transition_event` of `app/domains/tenant/service.py` and the router
    actions that reach it (`app/domains/events/service.py`, `app/domains/events/router.py`). */
module TripModel {
  import opened Wrappers

  type Id = int
  type Time = nat

  datatype Status = Draft | Proposed | Approved | Published

  /** The action names of the transition table. */
  datatype Action =
    | SubmitForApproval | Propose | SubmitToManager | SubmitToEventTeacher
    | ManagerApprove | Approve
    | ManagerReject | Reject
    | TeacherPublish | Publish | SubmitPublish   // "submit", on an approved trip
    | ManagerPublish
    | EventTeacherReject                         // sent by one route, listed in no transition

  /** `roles` are the literal role strings; `grants` are the names `has_role` answers true for. */
  datatype Actor = Actor(id: Id, roles: set<string>, grants: set<string>)

  datatype Event = Event(
    createdBy: Id, classes: seq<Id>, status: Status,
    submittedAt: Option<Time>, approvedAt: Option<Time>, publishedAt: Option<Time>,
    reviewer: Option<Id>, rejectionReason: Option<string>)

  datatype Error = NotAllowed | NotAuthorised | NotCreator | NoClasses | NoReason

  predicate IsSubmit(a: Action) { a.SubmitForApproval? || a.Propose? || a.SubmitToManager? || a.SubmitToEventTeacher? }
  predicate IsApproval(a: Action) { a.ManagerApprove? || a.Approve? }
  predicate IsRejection(a: Action) { a.ManagerReject? || a.Reject? }
  predicate IsPublication(a: Action) { a.TeacherPublish? || a.Publish? || a.SubmitPublish? || a.ManagerPublish? }

  /** TRANSITIONS: next status and required role. */
  function Transition(status: Status, a: Action): Option<(Status, string)> {
    match status
    case Draft => if IsSubmit(a) then Some((Proposed, "teacher")) else None
    case Proposed =>
      if IsApproval(a) then Some((Approved, "manager"))
      else if IsRejection(a) then Some((Draft, "manager"))
      else None
    case Approved =>
      if a.ManagerPublish? then Some((Published, "manager"))
      else if IsPublication(a) then Some((Published, "teacher"))
      else None
    case Published => None
  }

  /** ACTION_PERMISSIONS. */
  function Permissions(a: Action): set<string> {
    if IsSubmit(a) then {"event:submit", "event:propose"}
    else if IsApproval(a) || IsRejection(a) then {"event:review"}
    else if IsPublication(a) then {"event:publish"}
    else {}
  }

  const ADMINS: set<string> := {"school_admin", "super_admin"}

  predicate Authorised(actor: Actor, a: Action, required: string) {
    var extra := if required == "teacher" then {"event_teacher"} else {};
    actor.roles * (ADMINS + {required} + extra + Permissions(a)) != {}
  }

  predicate Blank(reason: Option<string>) {
    reason.None? || forall i :: 0 <= i < |reason.value| ==> reason.value[i] == ' '
  }

  function TransitionError(e: Event, a: Action, actor: Actor, reason: Option<string>): Option<Error> {
    var next := Transition(e.status, a);
    if next.None? then Some(NotAllowed)
    else if !Authorised(actor, a, next.value.1) then Some(NotAuthorised)
    else if a.SubmitForApproval? || a.Propose? || a.SubmitToEventTeacher? then
      if e.createdBy != actor.id && actor.roles * ADMINS == {} then Some(NotCreator)
      else if e.classes == [] then Some(NoClasses)
      else None
    else if IsRejection(a) && Blank(reason) then Some(NoReason)
    else None
  }

  function Coalesce<T>(new_: Option<T>, stored: Option<T>): Option<T> { if new_.Some? then new_ else stored }

  /** The reason without surrounding blanks. */
  function Trimmed(s: string): string {
    if s == "" then s
    else if s[0] == ' ' then Trimmed(s[1..])
    else if s[|s| - 1] == ' ' then Trimmed(s[..|s| - 1])
    else s
  }

  function StoredReason(reason: Option<string>): string {
    if reason.None? || reason.value == "" then "No reason provided" else Trimmed(reason.value)
  }

  /** The row the UPDATE leaves: timestamps keep their old value unless stamped anew, the
      rejection reason is always overwritten. */
  function Updated(e: Event, a: Action, actor: Actor, reason: Option<string>, now: Time): Event
    requires Transition(e.status, a).Some?
  {
    var stamped := a.TeacherPublish? || a.Publish? || a.ManagerPublish?;
    e.(status := Transition(e.status, a).value.0,
       submittedAt := Coalesce(if IsSubmit(a) then Some(now) else None, e.submittedAt),
       approvedAt := Coalesce(if IsApproval(a) then Some(now) else None, e.approvedAt),
       publishedAt := Coalesce(if stamped then Some(now) else None, e.publishedAt),
       reviewer := Coalesce(if IsApproval(a) then Some(actor.id) else None, e.reviewer),
       rejectionReason := if IsRejection(a) then Some(StoredReason(reason)) else None)
  }

  // ------------------------------------------------------------------
  // Router requests
  // ------------------------------------------------------------------

  datatype Request =
    | Submit(actor: Actor)
    | ManagerDecision(actor: Actor, approve: bool, reason: Option<string>)
    | PublishTrip(actor: Actor)
    | EventTeacherDecision(actor: Actor, reason: Option<string>)
    | Tick(seconds: nat)

  /** `resolve_submit_action`. */
  function SubmitAction(status: Status, actor: Actor): Option<Action> {
    if status.Draft? && actor.grants * {"teacher", "school_admin", "event:submit"} != {} then Some(SubmitForApproval)
    else if status.Approved? && actor.grants * {"teacher", "school_admin", "manager"} != {} then Some(TeacherPublish)
    else None
  }

  const PUBLISHERS: set<string> := {"teacher", "event_teacher", "manager", "school_admin", "super_admin"}

  /** The action a route sends to `transition_event`, if it sends one. */
  function RoutedAction(status: Status, r: Request): Option<Action> {
    match r
    case Submit(actor) => SubmitAction(status, actor)
    case ManagerDecision(_, approve, _) => Some(if approve then ManagerApprove else ManagerReject)
    case PublishTrip(actor) =>
      if actor.grants * PUBLISHERS == {} then None
      else Some(if "manager" in actor.grants then ManagerPublish else TeacherPublish)
    case EventTeacherDecision(_, _) => Some(EventTeacherReject)
    case Tick(_) => None
  }

  function ReasonOf(r: Request): Option<string> {
    match r
    case ManagerDecision(_, _, reason) => reason
    case EventTeacherDecision(_, reason) => reason
    case _ => None
  }

  /** A successful transition, for the history. */
  datatype Entry = Entry(action: Action, actor: Actor, at: Time)

  datatype State = State(event: Event, now: Time, log: seq<Entry>)

  /** The action a request succeeds in, if any. */
  function Effect(s: State, r: Request): Option<Action> {
    var a := RoutedAction(s.event.status, r);
    if a.Some? && !r.Tick? && TransitionError(s.event, a.value, r.actor, ReasonOf(r)).None? then a else None
  }

  function Next(s: State, r: Request): State {
    match r
    case Tick(seconds) => s.(now := s.now + seconds)
    case _ =>
      var a := Effect(s, r);
      if a.None? then s
      else State(Updated(s.event, a.value, r.actor, ReasonOf(r), s.now), s.now,
                 s.log + [Entry(a.value, r.actor, s.now)])
  }

  function After(s: State, requests: seq<Request>): State
    decreases |requests|
  {
    if requests == [] then s else After(Next(s, requests[0]), requests[1..])
  }

  /** A trip as `create_event` inserts it. */
  predicate NewTrip(s: State) {
    && s.event.status.Draft? && s.log == []
    && s.event.submittedAt.None? && s.event.approvedAt.None? && s.event.publishedAt.None?
    && s.event.reviewer.None? && s.event.rejectionReason.None?
  }

  // ------------------------------------------------------------------
  // Timestamps
  // ------------------------------------------------------------------

  /** Which columns are set, and in which order they were stamped. */
  ghost predicate Stamps(e: Event, now: Time) {
    && (e.approvedAt.Some? <==> e.status.Approved? || e.status.Published?)
    && (e.publishedAt.Some? <==> e.status.Published?)
    && (e.rejectionReason.Some? ==> e.status.Draft?)
    && (!e.status.Draft? ==> e.submittedAt.Some?)
    && (e.submittedAt.Some? ==> e.submittedAt.value <= now)
    && (e.approvedAt.Some? ==> e.submittedAt.Some? && e.submittedAt.value <= e.approvedAt.value <= now)
    && (e.publishedAt.Some? ==> e.approvedAt.Some? && e.approvedAt.value <= e.publishedAt.value <= now)
    && (e.reviewer.Some? <==> e.approvedAt.Some?)
  }

  lemma {:induction false} TrimmedOfText(s: string)
    requires !Blank(Some(s))
    ensures Trimmed(s) != "" && Trimmed(s)[0] != ' ' && Trimmed(s)[|Trimmed(s)| - 1] != ' '
    decreases |s|
  {
    var k :| 0 <= k < |s| && s[k] != ' ';
    if s[0] == ' ' {
      assert s[1..][k - 1] != ' ';
      TrimmedOfText(s[1..]);
    } else if s[|s| - 1] == ' ' {
      assert s[..|s| - 1][0] != ' ';
      TrimmedOfText(s[..|s| - 1]);
    }
  }

  /** Only blanks around it are gone. */
  lemma {:induction false} TrimmedIsWithin(s: string) returns (i: nat, j: nat)
    ensures i <= j <= |s| && Trimmed(s) == s[i..j]
    ensures forall k :: 0 <= k < i || j <= k < |s| ==> s[k] == ' '
    decreases |s|
  {
    i, j := 0, |s|;
    if s != "" && s[0] == ' ' {
      var a, b := TrimmedIsWithin(s[1..]);
      i, j := a + 1, b + 1;
      assert forall k :: 1 <= k < |s| ==> s[k] == s[1..][k - 1];
      assert s[1..][a..b] == s[i..j];
    } else if s != "" && s[|s| - 1] == ' ' {
      var init := s[..|s| - 1];
      var a, b := TrimmedIsWithin(init);
      i, j := a, b;
      assert forall k :: 0 <= k < |init| ==> s[k] == init[k];
      assert init[a..b] == s[a..b];
    }
  }

  /** A rejected proposal keeps the reason given, without the blanks around it, and it says
      something. */
  lemma RejectionKeepsAReason(e: Event, a: Action, actor: Actor, reason: Option<string>, now: Time)
    returns (i: nat, j: nat)
    requires IsRejection(a) && TransitionError(e, a, actor, reason).None?
    ensures reason.Some? && i < j <= |reason.value|
    ensures Updated(e, a, actor, reason, now).rejectionReason == Some(reason.value[i..j])
    ensures reason.value[i] != ' ' && reason.value[j - 1] != ' '
    ensures forall k :: 0 <= k < i || j <= k < |reason.value| ==> reason.value[k] == ' '
  {
    TrimmedOfText(reason.value);
    i, j := TrimmedIsWithin(reason.value);
  }

  /** Of all the entries of the transition table, "submit" on an approved trip is the one that
      breaks the timestamps: it publishes without stamping `published_at`. */
  lemma OnlySubmitSkipsTheStamp(e: Event, a: Action, actor: Actor, reason: Option<string>, now: Time)
    requires Stamps(e, now) && TransitionError(e, a, actor, reason).None?
    ensures Stamps(Updated(e, a, actor, reason, now), now) <==> !a.SubmitPublish?
  {
  }

  /** And no route ever sends it. */
  lemma NoRouteSendsSubmit(status: Status, r: Request)
    ensures RoutedAction(status, r) != Some(SubmitPublish)
  {
  }

  // ------------------------------------------------------------------
  // The shape of a trip's history
  // ------------------------------------------------------------------

  ghost predicate SubmittedAt(log: seq<Entry>, i: nat, e: Event) {
    && i < |log| && IsSubmit(log[i].action)
    && (log[i].actor.id == e.createdBy || log[i].actor.roles * ADMINS != {})
  }

  ghost predicate ApprovedAt(log: seq<Entry>, i: nat) {
    i < |log| && IsApproval(log[i].action) && Authorised(log[i].actor, log[i].action, "manager")
  }

  ghost predicate PublishedAt(log: seq<Entry>, i: nat) {
    && i < |log| && IsPublication(log[i].action)
    && Authorised(log[i].actor, log[i].action, if log[i].action.ManagerPublish? then "manager" else "teacher")
  }

  ghost predicate RejectedAt(log: seq<Entry>, i: nat) {
    i < |log| && IsRejection(log[i].action) && Authorised(log[i].actor, log[i].action, "manager")
  }

  /** `rounds` rejected proposals. */
  ghost predicate RejectedRounds(log: seq<Entry>, rounds: nat, e: Event) {
    && 2 * rounds <= |log|
    && forall i: nat :: i < rounds ==> SubmittedAt(log, 2 * i, e) && RejectedAt(log, 2 * i + 1)
  }

  /** (submit reject)*, then as much of submit, approve, publish as the status says. */
  ghost predicate HistoryShape(log: seq<Entry>, rounds: nat, e: Event) {
    && RejectedRounds(log, rounds, e)
    && |log| == 2 * rounds + (match e.status case Draft => 0 case Proposed => 1 case Approved => 2 case Published => 3)
    && (!e.status.Draft? ==> SubmittedAt(log, 2 * rounds, e))
    && (e.status.Approved? || e.status.Published? ==> ApprovedAt(log, 2 * rounds + 1))
    && (e.status.Published? ==> PublishedAt(log, 2 * rounds + 2))
  }

  ghost predicate Inv(s: State) {
    && Stamps(s.event, s.now)
    && (exists rounds: nat :: HistoryShape(s.log, rounds, s.event))
    && (!s.event.status.Draft? ==> s.event.classes != [])
  }

  lemma EffectKeepsStamps(s: State, r: Request)
    requires Stamps(s.event, s.now) && !r.Tick? && Effect(s, r).Some?
    ensures Stamps(Next(s, r).event, s.now)
    ensures TransitionError(s.event, Effect(s, r).value, r.actor, ReasonOf(r)).None?
    ensures !Effect(s, r).value.SubmitPublish? && !Effect(s, r).value.SubmitToManager?
  {
    NoRouteSendsSubmit(s.event.status, r);
    OnlySubmitSkipsTheStamp(s.event, Effect(s, r).value, r.actor, ReasonOf(r), s.now);
  }

  lemma EffectKeepsShape(s: State, r: Request, rounds: nat) returns (rounds': nat)
    requires Stamps(s.event, s.now) && HistoryShape(s.log, rounds, s.event) && !r.Tick? && Effect(s, r).Some?
    ensures HistoryShape(Next(s, r).log, rounds', Next(s, r).event)
  {
    EffectKeepsStamps(s, r);
    var a := Effect(s, r).value;
    var t := Next(s, r);
    rounds' := if IsRejection(a) then rounds + 1 else rounds;
    assert forall i :: 0 <= i < |s.log| ==> t.log[i] == s.log[i];
    forall i: nat | i < rounds'
      ensures SubmittedAt(t.log, 2 * i, t.event) && RejectedAt(t.log, 2 * i + 1)
    {
      if i < rounds {
        assert SubmittedAt(s.log, 2 * i, s.event) && RejectedAt(s.log, 2 * i + 1);
      }
    }
  }

  lemma StepKeepsInv(s: State, r: Request)
    requires Inv(s)
    ensures Inv(Next(s, r))
  {
    var rounds: nat :| HistoryShape(s.log, rounds, s.event);
    if !r.Tick? && Effect(s, r).Some? {
      EffectKeepsStamps(s, r);
      var rounds' := EffectKeepsShape(s, r, rounds);
    } else {
      assert HistoryShape(Next(s, r).log, rounds, Next(s, r).event);
    }
  }

  lemma {:induction false} RunKeepsInv(s: State, requests: seq<Request>)
    requires Inv(s)
    ensures Inv(After(s, requests))
    decreases |requests|
  {
    if requests != [] {
      StepKeepsInv(s, requests[0]);
      RunKeepsInv(Next(s, requests[0]), requests[1..]);
    }
  }

  /** Over every run of router requests on a new trip: the timestamps are set exactly as the
      status says and in order, and the trip's history is some number of rejected proposals
      followed by what its status says: a submit by its creator (or an administrator), then an
      authorised approval, then an authorised publication. */
  lemma TripHistory(s: State, requests: seq<Request>)
    requires NewTrip(s)
    ensures var t := After(s, requests);
      && Stamps(t.event, t.now)
      && (exists rounds: nat :: HistoryShape(t.log, rounds, t.event))
      && (!t.event.status.Draft? ==> t.event.classes != [])
  {
    assert HistoryShape(s.log, 0, s.event);
    RunKeepsInv(s, requests);
  }

  /** Publication is final: nothing about a published trip's row changes any more. */
  lemma {:induction false} PublishedIsTerminal(s: State, requests: seq<Request>)
    requires s.event.status.Published?
    ensures After(s, requests).event == s.event && After(s, requests).log == s.log
    decreases |requests|
  {
    if requests != [] {
      PublishedIsTerminal(Next(s, requests[0]), requests[1..]);
    }
  }

  // ------------------------------------------------------------------
  // Who may do what
  // ------------------------------------------------------------------

  predicate HoldsOneOf(actor: Actor, roles: set<string>) { exists r :: r in roles && r in actor.roles }

  lemma HoldsMeansMeets(actor: Actor, roles: set<string>)
    ensures actor.roles * roles != {} <==> HoldsOneOf(actor, roles)
  {
    if r :| r in roles && r in actor.roles {
      assert r in actor.roles * roles;
    }
  }

  /** The whole transition table with its roles: which transitions exist, who may make them, what
      each demands, and where it leads. */
  lemma WhoMayAct(e: Event, a: Action, actor: Actor, reason: Option<string>)
    ensures var error := TransitionError(e, a, actor, reason);
      var submits := a in {SubmitForApproval, Propose, SubmitToManager, SubmitToEventTeacher};
      var approves, rejects := a in {ManagerApprove, Approve}, a in {ManagerReject, Reject};
      var publishes := a in {TeacherPublish, Publish, SubmitPublish};
      && (error == Some(NotAllowed) <==>
            !((e.status == Draft && submits) || (e.status == Proposed && (approves || rejects))
              || (e.status == Approved && (publishes || a == ManagerPublish))))
      && (error != Some(NotAllowed) ==>
            (error != Some(NotAuthorised) <==> HoldsOneOf(actor,
              if submits then {"school_admin", "super_admin", "teacher", "event_teacher", "event:submit",
                               "event:propose"}
              else if approves || rejects then {"school_admin", "super_admin", "manager", "event:review"}
              else if publishes then {"school_admin", "super_admin", "teacher", "event_teacher", "event:publish"}
              else {"school_admin", "super_admin", "manager", "event:publish"})))
      && (error.None? <==>
            && error != Some(NotAllowed) && error != Some(NotAuthorised)
            && (submits && a != SubmitToManager ==>
                  e.classes != [] && (e.createdBy == actor.id || HoldsOneOf(actor, {"school_admin", "super_admin"})))
            && (rejects ==> reason.Some? && exists i :: 0 <= i < |reason.value| && reason.value[i] != ' '))
      && (error.None? ==>
            && Transition(e.status, a).Some?
            && Transition(e.status, a).value.0 == if submits then Proposed else if approves then Approved
                                                 else if rejects then Draft else Published)
  {
    HoldsMeansMeets(actor, {"school_admin", "super_admin"});
    var next := Transition(e.status, a);
    if next.Some? {
      var extra := if next.value.1 == "teacher" then {"event_teacher"} else {};
      HoldsMeansMeets(actor, ADMINS + {next.value.1} + extra + Permissions(a));
      AllowedRoles(e.status, a);
    }
  }

  /** The role sets of the table, spelled out. */
  lemma AllowedRoles(status: Status, a: Action)
    requires Transition(status, a).Some?
    ensures var required := Transition(status, a).value.1;
      var extra := if required == "teacher" then {"event_teacher"} else {};
      ADMINS + {required} + extra + Permissions(a) ==
        if IsSubmit(a) then {"school_admin", "super_admin", "teacher", "event_teacher", "event:submit", "event:propose"}
        else if IsApproval(a) || IsRejection(a) then {"school_admin", "super_admin", "manager", "event:review"}
        else if a != ManagerPublish then {"school_admin", "super_admin", "teacher", "event_teacher", "event:publish"}
        else {"school_admin", "super_admin", "manager", "event:publish"}
  {
  }

  /** Every entry of a history was made by somebody holding one of the roles its kind demands. */
  ghost predicate EveryEntryAuthorised(log: seq<Entry>) {
    forall i :: 0 <= i < |log| ==> AuthorisedEntry(log[i])
  }

  predicate AuthorisedEntry(x: Entry) {
    && x.action != EventTeacherReject
    && (x.action in {SubmitForApproval, Propose, SubmitToManager, SubmitToEventTeacher} ==>
          HoldsOneOf(x.actor, {"school_admin", "super_admin", "teacher", "event_teacher", "event:submit",
                               "event:propose"}))
    && (x.action in {ManagerApprove, Approve, ManagerReject, Reject} ==>
          HoldsOneOf(x.actor, {"school_admin", "super_admin", "manager", "event:review"}))
    && (x.action in {TeacherPublish, Publish, SubmitPublish} ==>
          HoldsOneOf(x.actor, {"school_admin", "super_admin", "teacher", "event_teacher", "event:publish"}))
    && (x.action == ManagerPublish ==>
          HoldsOneOf(x.actor, {"school_admin", "super_admin", "manager", "event:publish"}))
  }

  /** The columns record the history: the times of the last submission, of the approval and of the
      publication, and who approved. */
  ghost predicate ColumnsRecord(e: Event, log: seq<Entry>) {
    var n := |log|;
    match e.status
    case Draft => true
    case Proposed => n >= 1 && e.submittedAt == Some(log[n - 1].at)
    case Approved =>
      && n >= 2 && e.submittedAt == Some(log[n - 2].at)
      && e.approvedAt == Some(log[n - 1].at) && e.reviewer == Some(log[n - 1].actor.id)
    case Published =>
      && n >= 3 && e.submittedAt == Some(log[n - 3].at) && e.approvedAt == Some(log[n - 2].at)
      && e.reviewer == Some(log[n - 2].actor.id) && e.publishedAt == Some(log[n - 1].at)
  }

  lemma StepRecords(s: State, r: Request)
    requires EveryEntryAuthorised(s.log) && ColumnsRecord(s.event, s.log)
    ensures EveryEntryAuthorised(Next(s, r).log) && ColumnsRecord(Next(s, r).event, Next(s, r).log)
    ensures Next(s, r).event.createdBy == s.event.createdBy && Next(s, r).event.classes == s.event.classes
  {
    if !r.Tick? && Effect(s, r).Some? {
      var a := Effect(s, r).value;
      NoRouteSendsSubmit(s.event.status, r);
      EffectIsAuthorised(s.event, a, r.actor, ReasonOf(r), s.now);
      EffectRecords(s, a, r.actor, ReasonOf(r));
    }
  }

  lemma EffectIsAuthorised(e: Event, a: Action, actor: Actor, reason: Option<string>, now: Time)
    requires TransitionError(e, a, actor, reason).None?
    ensures AuthorisedEntry(Entry(a, actor, now))
  {
    WhoMayAct(e, a, actor, reason);
  }

  lemma EffectRecords(s: State, a: Action, actor: Actor, reason: Option<string>)
    requires TransitionError(s.event, a, actor, reason).None? && !a.SubmitPublish? && ColumnsRecord(s.event, s.log)
    ensures ColumnsRecord(Updated(s.event, a, actor, reason, s.now), s.log + [Entry(a, actor, s.now)])
  {
  }

  lemma {:induction false} RunRecords(s: State, requests: seq<Request>)
    requires EveryEntryAuthorised(s.log) && ColumnsRecord(s.event, s.log)
    ensures EveryEntryAuthorised(After(s, requests).log)
    ensures ColumnsRecord(After(s, requests).event, After(s, requests).log)
    ensures After(s, requests).event.createdBy == s.event.createdBy
      && After(s, requests).event.classes == s.event.classes
    decreases |requests|
  {
    if requests != [] {
      StepRecords(s, requests[0]);
      RunRecords(Next(s, requests[0]), requests[1..]);
    }
  }

  /** Over every run of router requests on a new trip: whoever submitted, approved, rejected or
      published held one of the roles for it, and the columns say when, and who approved. */
  lemma EverybodyWasAuthorised(s: State, requests: seq<Request>)
    requires NewTrip(s)
    ensures EveryEntryAuthorised(After(s, requests).log)
    ensures ColumnsRecord(After(s, requests).event, After(s, requests).log)
    ensures After(s, requests).event.createdBy == s.event.createdBy
      && After(s, requests).event.classes == s.event.classes
  {
    RunRecords(s, requests);
  }

  // ------------------------------------------------------------------
  // What each route does
  // ------------------------------------------------------------------

  predicate IsGranted(actor: Actor, names: set<string>) { exists r :: r in names && r in actor.grants }

  lemma GrantedMeansMeets(actor: Actor, names: set<string>)
    ensures actor.grants * names != {} <==> IsGranted(actor, names)
  {
    if r :| r in names && r in actor.grants {
      assert r in actor.grants * names;
    }
  }

  /** A manager's decision moves a proposed trip exactly when the caller may review, and rejects
      only with a reason that says something. */
  lemma ManagersDecide(s: State, actor: Actor, approve: bool, reason: Option<string>)
    ensures var t := Next(s, ManagerDecision(actor, approve, reason));
      var may := s.event.status == Proposed
        && HoldsOneOf(actor, {"school_admin", "super_admin", "manager", "event:review"});
      && (approve && may ==> t.event.status == Approved)
      && (!approve && may && !Blank(reason) ==> t.event.status == Draft)
      && (!may || (!approve && Blank(reason)) ==> t == s)
  {
    var a := if approve then ManagerApprove else ManagerReject;
    WhoMayAct(s.event, a, actor, reason);
  }

  /** Submitting moves a draft with classes to its reviewers, for its creator or an administrator;
      on an approved trip it publishes. */
  lemma SubmittingMoves(s: State, actor: Actor)
    ensures var t := Next(s, Submit(actor));
      var proposes := s.event.status == Draft && IsGranted(actor, {"teacher", "school_admin", "event:submit"})
        && HoldsOneOf(actor, {"school_admin", "super_admin", "teacher", "event_teacher", "event:submit",
                              "event:propose"})
        && (s.event.createdBy == actor.id || HoldsOneOf(actor, {"school_admin", "super_admin"}))
        && s.event.classes != [];
      var publishes := s.event.status == Approved && IsGranted(actor, {"teacher", "school_admin", "manager"})
        && HoldsOneOf(actor, {"school_admin", "super_admin", "teacher", "event_teacher", "event:publish"});
      && (proposes ==> t.event.status == Proposed)
      && (publishes ==> t.event.status == Published)
      && (!proposes && !publishes ==> t == s)
  {
    GrantedMeansMeets(actor, {"teacher", "school_admin", "event:submit"});
    GrantedMeansMeets(actor, {"teacher", "school_admin", "manager"});
    HoldsMeansMeets(actor, {"school_admin", "super_admin"});
    WhoMayAct(s.event, SubmitForApproval, actor, None);
    WhoMayAct(s.event, TeacherPublish, actor, None);
  }

  /** Publishing publishes an approved trip; a manager needs the manager's roles for it, anybody
      else the teacher's. The event teacher's decision does nothing. */
  lemma PublishingMoves(s: State, actor: Actor, reason: Option<string>)
    ensures var t := Next(s, PublishTrip(actor));
      var may := s.event.status == Approved
        && IsGranted(actor, {"teacher", "event_teacher", "manager", "school_admin", "super_admin"})
        && HoldsOneOf(actor,
             if "manager" in actor.grants then {"school_admin", "super_admin", "manager", "event:publish"}
             else {"school_admin", "super_admin", "teacher", "event_teacher", "event:publish"});
      && (may ==> t.event.status == Published)
      && (!may ==> t == s)
    ensures Next(s, EventTeacherDecision(actor, reason)) == s
  {
    GrantedMeansMeets(actor, PUBLISHERS);
    WhoMayAct(s.event, if "manager" in actor.grants then ManagerPublish else TeacherPublish, actor, None);
  }
}

/** `transition_event` on the stored row, with the notices it creates. */
module TripService {
  import opened Wrappers
  import opened TripModel

  // ------------------------------------------------------------------
  // Who is told what
  // ------------------------------------------------------------------

  /** A row of `students`, and its rows of `student_parent_map`. */
  datatype Student = Student(id: Id, classId: Option<Id>, parents: seq<Id>)

  /** The titles a notice can carry; the two publication branches word theirs differently. */
  datatype Topic =
    | NewProposal | ProposalApproved | ProposalRejected
    | TripOpenForStudent | TripOpenForParent       // teacher_publish, publish
    | EventOutForStudent | EventOutForParent       // manager_publish

  datatype Notice = Notice(recipient: Id, topic: Topic)

  predicate Announces(n: Notice) {
    n.topic.TripOpenForStudent? || n.topic.TripOpenForParent? || n.topic.EventOutForStudent?
      || n.topic.EventOutForParent?
  }

  predicate Mapped(student: Student, classes: seq<Id>) { student.classId.Some? && student.classId.value in classes }

  /** Who hears about a publication: each student of a mapped class, then each linked parent. */
  function Recipients(students: seq<Student>, classes: seq<Id>): seq<Id> {
    if students == [] then []
    else (if Mapped(students[0], classes) then [students[0].id] + students[0].parents else [])
         + Recipients(students[1..], classes)
  }

  function RecipientsOf(notices: seq<Notice>): seq<Id> {
    if notices == [] then [] else [notices[0].recipient] + RecipientsOf(notices[1..])
  }

  /** One notice each. */
  function ToAll(people: seq<Id>, topic: Topic): (notices: seq<Notice>)
    ensures |notices| == |people|
  {
    seq(|people|, i requires 0 <= i < |people| => Notice(people[i], topic))
  }

  function ToFamily(s: Student, forStudent: Topic, forParent: Topic): seq<Notice> {
    [Notice(s.id, forStudent)] + ToAll(s.parents, forParent)
  }

  function Publication(students: seq<Student>, classes: seq<Id>, forStudent: Topic, forParent: Topic): seq<Notice> {
    if students == [] then []
    else (if Mapped(students[0], classes) then ToFamily(students[0], forStudent, forParent) else [])
         + Publication(students[1..], classes, forStudent, forParent)
  }

  /** The notices of a successful transition. */
  function Notices(e: Event, a: Action, students: seq<Student>, managers: seq<Id>): seq<Notice> {
    if IsSubmit(a) then ToAll(managers, NewProposal)
    else if IsApproval(a) then [Notice(e.createdBy, ProposalApproved)]
    else if IsRejection(a) then [Notice(e.createdBy, ProposalRejected)]
    else if a.TeacherPublish? || a.Publish? then Publication(students, e.classes, TripOpenForStudent, TripOpenForParent)
    else if a.ManagerPublish? then Publication(students, e.classes, EventOutForStudent, EventOutForParent)
    else []
  }

  lemma {:induction false} PublicationAppend(a: seq<Student>, b: seq<Student>, classes: seq<Id>, t: Topic, u: Topic)
    ensures Publication(a + b, classes, t, u) == Publication(a, classes, t, u) + Publication(b, classes, t, u)
  {
    if a == [] {
      assert a + b == b;
    } else {
      assert (a + b)[1..] == a[1..] + b;
      PublicationAppend(a[1..], b, classes, t, u);
      var head := if Mapped(a[0], classes) then ToFamily(a[0], t, u) else [];
      assert head + (Publication(a[1..], classes, t, u) + Publication(b, classes, t, u))
             == (head + Publication(a[1..], classes, t, u)) + Publication(b, classes, t, u);
    }
  }

  lemma OneMoreStudent(students: seq<Student>, i: nat, classes: seq<Id>, t: Topic, u: Topic)
    requires i < |students|
    ensures Publication(students[..i + 1], classes, t, u) ==
            Publication(students[..i], classes, t, u)
            + (if Mapped(students[i], classes) then ToFamily(students[i], t, u) else [])
  {
    assert students[..i + 1] == students[..i] + [students[i]];
    PublicationAppend(students[..i], [students[i]], classes, t, u);
    assert Publication([students[i]], classes, t, u) ==
      (if Mapped(students[i], classes) then ToFamily(students[i], t, u) else []) by {
      assert Publication([students[i]][1..], classes, t, u) == [];
    }
  }

  lemma {:induction false} NobodyIsMapped(students: seq<Student>, t: Topic, u: Topic)
    ensures Publication(students, [], t, u) == []
  {
    if students != [] {
      NobodyIsMapped(students[1..], t, u);
    }
  }

  class Trip {
    var event: Event

    /** Branch by branch, with `update_fields` collected first and written last; the notices are
        created on the way. `students` and `managers` are those tables at the time. */
    method TransitionEvent(a: Action, actor: Actor, reason: Option<string>, now: Time, students: seq<Student>,
                           managers: seq<Id>)
      returns (error: Option<Error>, notices: seq<Notice>)
      modifies this
      ensures error == TransitionError(old(event), a, actor, reason)
      ensures event == if error.None? then Updated(old(event), a, actor, reason, now) else old(event)
      ensures notices == if error.None? then Notices(old(event), a, students, managers) else []
    {
      notices := [];
      var key := Transition(event.status, a);
      if key.None? {
        return Some(NotAllowed), [];
      }
      var (nextStatus, required) := key.value;
      if !Authorised(actor, a, required) {
        return Some(NotAuthorised), [];
      }
      if a.SubmitForApproval? || a.Propose? || a.SubmitToEventTeacher? {
        if event.createdBy != actor.id && actor.roles * ADMINS == {} {
          return Some(NotCreator), [];
        }
        if event.classes == [] {
          return Some(NoClasses), [];
        }
      } else if IsRejection(a) {
        if Blank(reason) {
          return Some(NoReason), [];
        }
      }
      var submitted, approved, published, reviewer, rejection := None, None, None, None, None;
      if IsSubmit(a) {
        submitted := Some(now);
        for i := 0 to |managers|
          invariant notices == ToAll(managers, NewProposal)[..i]
        {
          notices := notices + [Notice(managers[i], NewProposal)];
        }
      } else if IsApproval(a) {
        approved, reviewer := Some(now), Some(actor.id);
        notices := [Notice(event.createdBy, ProposalApproved)];
      } else if IsRejection(a) {
        rejection := Some(StoredReason(reason));
        notices := [Notice(event.createdBy, ProposalRejected)];
      } else if (a.TeacherPublish? || a.Publish?) && event.status.Approved? {
        published := Some(now);
        notices := TellOfTeacherPublish(students, event.classes);
      } else if a.ManagerPublish? {
        published := Some(now);
        notices := TellOfManagerPublish(students, event.classes);
      }
      event := event.(status := nextStatus,
                      submittedAt := Coalesce(submitted, event.submittedAt),
                      approvedAt := Coalesce(approved, event.approvedAt),
                      publishedAt := Coalesce(published, event.publishedAt),
                      reviewer := Coalesce(reviewer, event.reviewer),
                      rejectionReason := rejection);
      error := None;
    }
  }

  /** The loops of the teacher_publish branch. */
  method TellOfTeacherPublish(students: seq<Student>, classes: seq<Id>) returns (notices: seq<Notice>)
    ensures notices == Publication(students, classes, TripOpenForStudent, TripOpenForParent)
  {
    notices := [];
    if classes == [] {
      NobodyIsMapped(students, TripOpenForStudent, TripOpenForParent);
      return;
    }
    for i := 0 to |students|
      invariant notices == Publication(students[..i], classes, TripOpenForStudent, TripOpenForParent)
    {
      OneMoreStudent(students, i, classes, TripOpenForStudent, TripOpenForParent);
      if Mapped(students[i], classes) {
        var parents := students[i].parents;
        ghost var before := notices;
        notices := notices + [Notice(students[i].id, TripOpenForStudent)];
        for j := 0 to |parents|
          invariant notices ==
            before + [Notice(students[i].id, TripOpenForStudent)] + ToAll(parents, TripOpenForParent)[..j]
        {
          notices := notices + [Notice(parents[j], TripOpenForParent)];
        }
      }
    }
    assert students[..|students|] == students;
  }

  /** The loops of the manager_publish branch, written out a second time in the source. */
  method TellOfManagerPublish(students: seq<Student>, classes: seq<Id>) returns (notices: seq<Notice>)
    ensures notices == Publication(students, classes, EventOutForStudent, EventOutForParent)
  {
    notices := [];
    if classes == [] {
      NobodyIsMapped(students, EventOutForStudent, EventOutForParent);
      return;
    }
    for i := 0 to |students|
      invariant notices == Publication(students[..i], classes, EventOutForStudent, EventOutForParent)
    {
      OneMoreStudent(students, i, classes, EventOutForStudent, EventOutForParent);
      if Mapped(students[i], classes) {
        var parents := students[i].parents;
        ghost var before := notices;
        notices := notices + [Notice(students[i].id, EventOutForStudent)];
        for j := 0 to |parents|
          invariant notices ==
            before + [Notice(students[i].id, EventOutForStudent)] + ToAll(parents, EventOutForParent)[..j]
        {
          notices := notices + [Notice(parents[j], EventOutForParent)];
        }
      }
    }
    assert students[..|students|] == students;
  }

  // ------------------------------------------------------------------
  // Which transitions announce a trip, and to whom
  // ------------------------------------------------------------------

  lemma {:induction false} RecipientsOfAppend(a: seq<Notice>, b: seq<Notice>)
    ensures RecipientsOf(a + b) == RecipientsOf(a) + RecipientsOf(b)
  {
    if a == [] {
      assert a + b == b;
    } else {
      assert (a + b)[1..] == a[1..] + b;
      RecipientsOfAppend(a[1..], b);
    }
  }

  lemma {:induction false} RecipientsOfAll(people: seq<Id>, topic: Topic)
    ensures RecipientsOf(ToAll(people, topic)) == people
    decreases |people|
  {
    if people != [] {
      assert ToAll(people, topic)[1..] == ToAll(people[1..], topic);
      RecipientsOfAll(people[1..], topic);
    }
  }

  lemma {:induction false} RecipientsOfPublication(students: seq<Student>, classes: seq<Id>, t: Topic, u: Topic)
    ensures RecipientsOf(Publication(students, classes, t, u)) == Recipients(students, classes)
  {
    if students != [] {
      var s := students[0];
      RecipientsOfPublication(students[1..], classes, t, u);
      RecipientsOfAll(s.parents, u);
      var own := [Notice(s.id, t)];
      assert RecipientsOf(own) == [s.id] by {
        assert RecipientsOf(own[1..]) == [];
      }
      RecipientsOfAppend(own, ToAll(s.parents, u));
      var head := if Mapped(s, classes) then ToFamily(s, t, u) else [];
      RecipientsOfAppend(head, Publication(students[1..], classes, t, u));
    }
  }

  lemma {:induction false} PublicationAnnounces(students: seq<Student>, classes: seq<Id>, t: Topic, u: Topic)
    requires forall r :: Announces(Notice(r, t)) && Announces(Notice(r, u))
    ensures forall n :: n in Publication(students, classes, t, u) ==> Announces(n)
  {
    if students != [] {
      PublicationAnnounces(students[1..], classes, t, u);
      forall n | n in ToFamily(students[0], t, u) ensures Announces(n) {
        if n in ToAll(students[0].parents, u) {
          var i :| 0 <= i < |students[0].parents| && ToAll(students[0].parents, u)[i] == n;
        }
      }
    }
  }

  /** The actions that announce. */
  predicate IsAnnounced(a: Action) { a.TeacherPublish? || a.Publish? || a.ManagerPublish? }

  /** What a transition tells: an announcing action tells exactly the families of the mapped
      classes, and with announcements only; any other announces nothing to anybody. */
  lemma WhoIsTold(e: Event, a: Action, students: seq<Student>, managers: seq<Id>)
    ensures IsAnnounced(a) ==>
      && RecipientsOf(Notices(e, a, students, managers)) == Recipients(students, e.classes)
      && forall n :: n in Notices(e, a, students, managers) ==> Announces(n)
    ensures !IsAnnounced(a) ==> forall n :: n in Notices(e, a, students, managers) ==> !Announces(n)
    ensures a in {SubmitForApproval, Propose, SubmitToManager, SubmitToEventTeacher} ==>
      && RecipientsOf(Notices(e, a, students, managers)) == managers
      && forall n :: n in Notices(e, a, students, managers) ==> n.topic == NewProposal
    ensures a in {ManagerApprove, Approve} ==>
      Notices(e, a, students, managers) == [Notice(e.createdBy, ProposalApproved)]
    ensures a in {ManagerReject, Reject} ==>
      Notices(e, a, students, managers) == [Notice(e.createdBy, ProposalRejected)]
    ensures a in {SubmitPublish, EventTeacherReject} ==> Notices(e, a, students, managers) == []
  {
    if a.ManagerPublish? {
      RecipientsOfPublication(students, e.classes, EventOutForStudent, EventOutForParent);
      PublicationAnnounces(students, e.classes, EventOutForStudent, EventOutForParent);
    } else if IsAnnounced(a) {
      RecipientsOfPublication(students, e.classes, TripOpenForStudent, TripOpenForParent);
      PublicationAnnounces(students, e.classes, TripOpenForStudent, TripOpenForParent);
    } else if IsSubmit(a) {
      RecipientsOfAll(managers, NewProposal);
    }
  }

  /** The teacher's and the manager's publication tell the same people, in the same order. */
  lemma BothBranchesTellTheSame(e: Event, students: seq<Student>, managers: seq<Id>)
    ensures RecipientsOf(Notices(e, TeacherPublish, students, managers)) ==
      RecipientsOf(Notices(e, ManagerPublish, students, managers))
    ensures multiset(RecipientsOf(Notices(e, TeacherPublish, students, managers)))
            == multiset(RecipientsOf(Notices(e, ManagerPublish, students, managers)))
  {
    WhoIsTold(e, TeacherPublish, students, managers);
    WhoIsTold(e, ManagerPublish, students, managers);
  }

  /** A transition that publishes tells the families of the mapped classes if and only if it is
      not "submit", unless there is nobody to tell. */
  lemma WhenPublishingAnnounces(e: Event, a: Action, actor: Actor, reason: Option<string>, students: seq<Student>,
                                managers: seq<Id>)
    requires TransitionError(e, a, actor, reason).None? && Transition(e.status, a).value.0.Published?
    ensures RecipientsOf(Notices(e, a, students, managers)) == Recipients(students, e.classes) <==>
            !a.SubmitPublish? || Recipients(students, e.classes) == []
  {
    WhoIsTold(e, a, students, managers);
  }

  /** A trip is announced once: over every run of router requests on a new trip, the history
      holds exactly one announcing transition if the trip is published, and none before. */
  lemma AnnouncedExactlyOnce(s: State, requests: seq<Request>)
    requires NewTrip(s)
    ensures var t := After(s, requests);
      && (t.event.status.Published? ==> |t.log| > 0 && IsAnnounced(t.log[|t.log| - 1].action))
      && forall i :: 0 <= i < |t.log| && IsAnnounced(t.log[i].action) ==> t.event.status.Published? && i == |t.log| - 1
  {
    TripHistory(s, requests);
    NeverSubmitPublish(s, requests);
    var t := After(s, requests);
    var rounds: nat :| HistoryShape(t.log, rounds, t.event);
    OnlyTheLastAnnounces(t.log, rounds, t.event);
    if t.event.status.Published? {
      assert t.log[2 * rounds + 2] in t.log;
    }
  }

  lemma OnlyTheLastAnnounces(log: seq<Entry>, rounds: nat, e: Event)
    requires HistoryShape(log, rounds, e)
    ensures forall i :: 0 <= i < |log| && IsAnnounced(log[i].action) ==> e.status.Published? && i == |log| - 1
  {
    forall i | 0 <= i < 2 * rounds ensures !IsAnnounced(log[i].action) {
      var k := i / 2;
      assert SubmittedAt(log, 2 * k, e) && RejectedAt(log, 2 * k + 1);
      assert i == 2 * k || i == 2 * k + 1;
    }
  }

  lemma {:induction false} NeverSubmitPublish(s: State, requests: seq<Request>)
    requires forall x :: x in s.log ==> !x.action.SubmitPublish?
    ensures forall x :: x in After(s, requests).log ==> !x.action.SubmitPublish?
    decreases |requests|
  {
    if requests != [] {
      var r := requests[0];
      NoRouteSendsSubmit(s.event.status, r);
      NeverSubmitPublish(Next(s, r), requests[1..]);
    }
  }

  // ------------------------------------------------------------------
  // Counting the fan-out
  // ------------------------------------------------------------------

  lemma {:induction false} RecipientsAppend(a: seq<Student>, b: seq<Student>, classes: seq<Id>)
    ensures Recipients(a + b, classes) == Recipients(a, classes) + Recipients(b, classes)
  {
    if a == [] {
      assert a + b == b;
    } else {
      assert (a + b)[1..] == a[1..] + b;
      RecipientsAppend(a[1..], b, classes);
    }
  }

  /** How often `who` is a student of a mapped class. */
  function AsStudent(students: seq<Student>, classes: seq<Id>, who: Id): nat {
    |StudentHits(students, classes, who)|
  }

  function StudentHits(students: seq<Student>, classes: seq<Id>, who: Id): set<nat> {
    set i: nat | i < |students| && Mapped(students[i], classes) && students[i].id == who
  }

  /** How many students of a mapped class list `who` among their parents. */
  function AsParent(students: seq<Student>, classes: seq<Id>, who: Id): nat {
    |ParentHits(students, classes, who)|
  }

  function ParentHits(students: seq<Student>, classes: seq<Id>, who: Id): set<nat> {
    set i: nat | i < |students| && Mapped(students[i], classes) && who in students[i].parents
  }

  predicate ParentsDistinct(s: Student) { forall i, j :: 0 <= i < j < |s.parents| ==> s.parents[i] != s.parents[j] }

  lemma {:induction false} CountInDistinct(xs: seq<Id>, who: Id)
    requires forall i, j :: 0 <= i < j < |xs| ==> xs[i] != xs[j]
    ensures multiset(xs)[who] == if who in xs then 1 else 0
  {
    if xs != [] {
      CountInDistinct(xs[1..], who);
      assert xs == [xs[0]] + xs[1..];
    }
  }

  /** The recipients as a multiset: one notice per student of a mapped class, and one per pair of
      such a student and a linked parent, however often a class is mapped. */
  lemma {:induction false} FanOutIsExact(students: seq<Student>, classes: seq<Id>, who: Id)
    requires forall s :: s in students ==> ParentsDistinct(s)
    ensures multiset(Recipients(students, classes))[who] ==
            AsStudent(students, classes, who) + AsParent(students, classes, who)
  {
    if students == [] {
      assert StudentHits(students, classes, who) == {} && ParentHits(students, classes, who) == {};
    } else {
      var init, last := students[..|students| - 1], students[|students| - 1];
      assert students == init + [last];
      RecipientsAppend(init, [last], classes);
      FanOutIsExact(init, classes, who);
      CountStudentOneMore(init, last, classes, who);
      CountParentOneMore(init, last, classes, who);
      assert Recipients([last], classes) == (if Mapped(last, classes) then [last.id] + last.parents else []) by {
        assert Recipients([last][1..], classes) == [];
      }
      if Mapped(last, classes) {
        assert last in students;
        CountInDistinct(last.parents, who);
      }
    }
  }

  lemma CountStudentOneMore(init: seq<Student>, last: Student, classes: seq<Id>, who: Id)
    ensures AsStudent(init + [last], classes, who) ==
            AsStudent(init, classes, who) + (if Mapped(last, classes) && last.id == who then 1 else 0)
  {
    var all, n := init + [last], |init|;
    var s0, s1 := StudentHits(init, classes, who), StudentHits(all, classes, who);
    assert all[n] == last;
    var expected := if Mapped(last, classes) && last.id == who then s0 + {n} else s0;
    forall i: nat ensures i in s1 <==> i in expected {
      if i < n {
        assert all[i] == init[i];
      }
    }
    assert s1 == expected && n !in s0;
  }

  lemma CountParentOneMore(init: seq<Student>, last: Student, classes: seq<Id>, who: Id)
    ensures AsParent(init + [last], classes, who) ==
            AsParent(init, classes, who) + (if Mapped(last, classes) && who in last.parents then 1 else 0)
  {
    var all, n := init + [last], |init|;
    var p0, p1 := ParentHits(init, classes, who), ParentHits(all, classes, who);
    assert all[n] == last;
    var expected := if Mapped(last, classes) && who in last.parents then p0 + {n} else p0;
    forall i: nat ensures i in p1 <==> i in expected {
      if i < n {
        assert all[i] == init[i];
      }
    }
    assert p1 == expected && n !in p0;
  }

  /** Mapping a class twice, or in another order, reaches the same people. */
  lemma {:induction false} RepeatedMappingsDoNotMatter(students: seq<Student>, classes: seq<Id>, classes': seq<Id>)
    requires forall c :: c in classes <==> c in classes'
    ensures Recipients(students, classes) == Recipients(students, classes')
  {
    if students != [] {
      RepeatedMappingsDoNotMatter(students[1..], classes, classes');
    }
  }
}
