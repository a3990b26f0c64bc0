/** `user_tenant_map` after cp_0004: one membership edge reachable by two keys, written by
    `app/domains/tenant/control_plane_repository.py` and `app/domains/invitations/repository.py`.

    Emails are CITEXT and normalised on every write, so they are compared here as values. */
module MembershipModel {
  import opened Wrappers

  type Email = string
  type Tenant = string
  type Identity = nat

  datatype Status = Invited | PendingApproval | Active | Suspended | Revoked

  /** The primary key (identity_id, tenant_id). */
  datatype Key = Key(identity: Identity, tenant: Tenant)

  datatype Row = Row(email: Email, role: string, roles: seq<string>, status: Status, isDefault: bool)

  type Table = map<Key, Row>

  datatype State = State(identities: map<Email, Identity>, rows: Table, nextIdentity: Identity)

  datatype Request =
    | Upsert(email: Email, tenant: Tenant, role: string)
    | Invite(identity: Identity, email: Email, tenant: Tenant, role: string)
    | Accept(identity: Identity, tenant: Tenant)
    | Decline(identity: Identity, tenant: Tenant)
    | SetDefault(identity: Identity, tenant: Tenant)
    | Suspend(email: Email, tenant: Tenant)
    | Restore(email: Email, tenant: Tenant)
    | Revoke(email: Email, tenant: Tenant)
    | Remove(email: Email, tenant: Tenant)

  /** `Changed(b)`: the statement ran, and `b` is what the method returns. Otherwise the database
      refused it and nothing changed. */
  datatype Reply = Changed(hit: bool) | UniqueViolation | ForeignKeyViolation

  // ------------------------------------------------------------------
  // The statements
  // ------------------------------------------------------------------

  /** The rows `WHERE email = $1 AND tenant_id = $2` selects. */
  predicate At(rows: Table, k: Key, email: Email, tenant: Tenant) {
    k in rows && k.tenant == tenant && rows[k].email == email
  }

  /** `get_or_create_identity`. */
  function WithIdentity(s: State, email: Email): (t: State)
    ensures email in t.identities && t.rows == s.rows
  {
    if email in s.identities then s
    else s.(identities := s.identities[email := s.nextIdentity], nextIdentity := s.nextIdentity + 1)
  }

  /** `UPDATE user_tenant_map SET status = $3 WHERE email = $1 AND tenant_id = $2 AND ...`. */
  function SetStatus(rows: Table, email: Email, tenant: Tenant, from: set<Status>, status: Status): (t: Table)
    ensures t.Keys == rows.Keys
  {
    map k | k in rows ::
      if At(rows, k, email, tenant) && rows[k].status in from then rows[k].(status := status) else rows[k]
  }

  ghost predicate Selects(rows: Table, email: Email, tenant: Tenant, from: set<Status>) {
    exists k :: At(rows, k, email, tenant) && rows[k].status in from
  }

  function UpsertStep(s: State, email: Email, tenant: Tenant, role: string): (State, Reply) {
    var s1 := WithIdentity(s, email);
    var key := Key(s1.identities[email], tenant);
    if exists k :: k in s1.rows && At(s1.rows, k, email, tenant) then
      (s1.(rows := map k | k in s1.rows ::
                     if At(s1.rows, k, email, tenant) then s1.rows[k].(role := role) else s1.rows[k]),
       Changed(true))
    else if key in s1.rows then (s1, UniqueViolation)
    else (s1.(rows := s1.rows[key := Row(email, role, [], Active, false)]), Changed(true))
  }

  function InviteStep(s: State, identity: Identity, email: Email, tenant: Tenant, role: string): (State, Reply) {
    var key := Key(identity, tenant);
    if key in s.rows then
      (if s.rows[key].status.Revoked?
       then s.(rows := s.rows[key := s.rows[key].(status := Invited, role := role, roles := [role])]) else s,
       Changed(true))
    else if exists k :: k in s.rows && At(s.rows, k, email, tenant) then (s, UniqueViolation)
    else if identity !in s.identities.Values then (s, ForeignKeyViolation)
    else (s.(rows := s.rows[key := Row(email, role, [role], Invited, false)]), Changed(true))
  }

  function DefaultStep(s: State, identity: Identity, tenant: Tenant): (State, Reply) {
    var key := Key(identity, tenant);
    var cleared := map k | k in s.rows ::
      if k.identity == identity then s.rows[k].(isDefault := false) else s.rows[k];
    var hit := key in cleared && cleared[key].status.Active?;
    (s.(rows := if hit then cleared[key := cleared[key].(isDefault := true)] else cleared), Changed(hit))
  }

  ghost function Next(s: State, r: Request): (State, Reply) {
    match r
    case Upsert(email, tenant, role) => UpsertStep(s, email, tenant, role)
    case Invite(identity, email, tenant, role) => InviteStep(s, identity, email, tenant, role)
    case Accept(identity, tenant) =>
      var key := Key(identity, tenant);
      if key in s.rows && s.rows[key].status.Invited?
      then (s.(rows := s.rows[key := s.rows[key].(status := Active)]), Changed(true)) else (s, Changed(false))
    case Decline(identity, tenant) =>
      var key := Key(identity, tenant);
      if key in s.rows && s.rows[key].status.Invited?
      then (s.(rows := s.rows - {key}), Changed(true)) else (s, Changed(false))
    case SetDefault(identity, tenant) => DefaultStep(s, identity, tenant)
    case Suspend(email, tenant) =>
      (s.(rows := SetStatus(s.rows, email, tenant, {Active}, Suspended)),
       Changed(Selects(s.rows, email, tenant, {Active})))
    case Restore(email, tenant) =>
      (s.(rows := SetStatus(s.rows, email, tenant, {Suspended}, Active)),
       Changed(Selects(s.rows, email, tenant, {Suspended})))
    case Revoke(email, tenant) =>
      (s.(rows := SetStatus(s.rows, email, tenant, {Invited, PendingApproval, Active, Suspended}, Revoked)),
       Changed(Selects(s.rows, email, tenant, {Invited, PendingApproval, Active, Suspended})))
    case Remove(email, tenant) =>
      (s.(rows := map k | k in s.rows && !At(s.rows, k, email, tenant) :: s.rows[k]), Changed(true))
  }

  /** `create_invited_membership` is called with an identity and that identity's own address. */
  predicate Matching(s: State, r: Request) {
    r.Invite? ==> r.email in s.identities && s.identities[r.email] == r.identity
  }

  ghost predicate Run(s: State, requests: seq<Request>)
    decreases |requests|
  {
    requests == [] || (Matching(s, requests[0]) && Run(Next(s, requests[0]).0, requests[1..]))
  }

  ghost function After(s: State, requests: seq<Request>): State
    requires Run(s, requests)
    decreases |requests|
  {
    if requests == [] then s else After(Next(s, requests[0]).0, requests[1..])
  }

  // ------------------------------------------------------------------
  // Two keys, one row
  // ------------------------------------------------------------------

  ghost predicate IdentitiesOk(identities: map<Email, Identity>, next: Identity) {
    && (forall e :: e in identities ==> identities[e] < next)
    && (forall e, f :: e in identities && f in identities && identities[e] == identities[f] ==> e == f)
  }

  /** Every row belongs to the identity of its own address. */
  ghost predicate Owned(identities: map<Email, Identity>, rows: Table) {
    forall k :: k in rows ==> rows[k].email in identities && identities[rows[k].email] == k.identity
  }

  ghost predicate OneDefault(rows: Table) {
    forall k, l :: k in rows && l in rows && k.identity == l.identity && rows[k].isDefault && rows[l].isDefault ==>
      k == l
  }

  ghost predicate Inv(s: State) {
    IdentitiesOk(s.identities, s.nextIdentity) && Owned(s.identities, s.rows) && OneDefault(s.rows)
  }

  /** (email, tenant) and (identity, tenant) are both unique and name the same row. */
  lemma BothKeysNameTheRow(s: State, k: Key, l: Key)
    requires Inv(s) && k in s.rows && l in s.rows && k.tenant == l.tenant
    ensures s.rows[k].email == s.rows[l].email <==> k == l
    ensures k.identity == l.identity <==> k == l
    ensures At(s.rows, k, s.rows[k].email, k.tenant) && k == Key(s.identities[s.rows[k].email], k.tenant)
  {
  }

  /** Updating rows in place, or dropping some, keeps the invariant as long as no address
      changes and no default is added. */
  lemma ShrinkKeepsInv(s: State, t: State)
    requires Inv(s) && t.identities == s.identities && t.nextIdentity == s.nextIdentity
    requires forall k :: k in t.rows ==>
      k in s.rows && t.rows[k].email == s.rows[k].email && (t.rows[k].isDefault ==> s.rows[k].isDefault)
    ensures Inv(t)
  {
  }

  lemma InsertKeepsInv(s: State, key: Key, row: Row)
    requires Inv(s) && key !in s.rows && !row.isDefault
    requires row.email in s.identities && s.identities[row.email] == key.identity
    ensures Inv(s.(rows := s.rows[key := row]))
  {
  }

  lemma UpsertKeepsInv(s: State, email: Email, tenant: Tenant, role: string)
    requires Inv(s)
    ensures Inv(UpsertStep(s, email, tenant, role).0)
  {
    var s1 := WithIdentity(s, email);
    assert Inv(s1);
    var key := Key(s1.identities[email], tenant);
    var t := UpsertStep(s, email, tenant, role).0;
    if exists k :: k in s1.rows && At(s1.rows, k, email, tenant) {
      ShrinkKeepsInv(s1, t);
    } else if key !in s1.rows {
      InsertKeepsInv(s1, key, Row(email, role, [], Active, false));
    }
  }

  lemma InviteKeepsInv(s: State, r: Request)
    requires Inv(s) && r.Invite? && Matching(s, r)
    ensures Inv(Next(s, r).0)
  {
    var key := Key(r.identity, r.tenant);
    if key in s.rows {
      ShrinkKeepsInv(s, Next(s, r).0);
    } else if !(exists k :: k in s.rows && At(s.rows, k, r.email, r.tenant)) {
      InsertKeepsInv(s, key, Row(r.email, r.role, [r.role], Invited, false));
    }
  }

  lemma DefaultKeepsInv(s: State, identity: Identity, tenant: Tenant)
    requires Inv(s)
    ensures Inv(DefaultStep(s, identity, tenant).0)
  {
    var t := DefaultStep(s, identity, tenant).0;
    assert forall k :: k in t.rows && k.identity == identity && t.rows[k].isDefault ==> k == Key(identity, tenant);
    assert forall k :: k in t.rows && k.identity != identity ==> t.rows[k] == s.rows[k];
    assert forall k :: k in t.rows ==> k in s.rows && t.rows[k].email == s.rows[k].email;
  }

  /** An upsert that misses on the address cannot collide on the identity, and an invitation
      that misses on the identity cannot collide on the address. */
  lemma WritesNeverCollide(s: State, r: Request)
    requires Inv(s) && Matching(s, r)
    ensures Next(s, r).1.Changed?
  {
    if r.Upsert? {
      var s1 := WithIdentity(s, r.email);
      var key := Key(s1.identities[r.email], r.tenant);
      assert key in s1.rows ==> At(s1.rows, key, r.email, r.tenant);
    }
  }

  lemma StepKeepsInv(s: State, r: Request)
    requires Inv(s) && Matching(s, r)
    ensures Inv(Next(s, r).0)
  {
    match r {
      case Upsert(e, t, role) => UpsertKeepsInv(s, e, t, role);
      case Invite(_, _, _, _) => InviteKeepsInv(s, r);
      case SetDefault(i, t) => DefaultKeepsInv(s, i, t);
      case _ => ShrinkKeepsInv(s, Next(s, r).0);
    }
  }

  /** An invitation adds a row: neither key is taken at that school, and the identity exists. */
  predicate AddsRow(s: State, r: Request)
    requires r.Invite?
  {
    && Key(r.identity, r.tenant) !in s.rows
    && (forall k :: k in s.rows ==> !At(s.rows, k, r.email, r.tenant))
    && r.identity in s.identities.Values
  }

  /** The matching identity is exactly what an invitation needs: in a consistent table it keeps
      the invariant if and only if identity and address match, or it adds no row. */
  lemma InviteNeedsMatching(s: State, r: Request)
    requires Inv(s) && r.Invite?
    ensures Inv(Next(s, r).0) <==> Matching(s, r) || !AddsRow(s, r)
    ensures Next(s, r).1.Changed? <==> AddsRow(s, r) || Key(r.identity, r.tenant) in s.rows
  {
    var key := Key(r.identity, r.tenant);
    var t := Next(s, r).0;
    if Matching(s, r) {
      StepKeepsInv(s, r);
    } else if AddsRow(s, r) {
      assert t.rows[key].email == r.email;
      assert !Owned(t.identities, t.rows);
    } else {
      ShrinkKeepsInv(s, t);
    }
  }

  /** The request names this row, by address and school or by identity and school. */
  predicate Names(s: State, r: Request, k: Key)
    requires k in s.rows
  {
    match r
    case Upsert(email, tenant, _) => s.rows[k].email == email && k.tenant == tenant
    case Invite(identity, _, tenant, _) => k == Key(identity, tenant)
    case Accept(identity, tenant) => k == Key(identity, tenant)
    case Decline(identity, tenant) => k == Key(identity, tenant)
    case SetDefault(identity, tenant) => k == Key(identity, tenant)
    case Suspend(email, tenant) => s.rows[k].email == email && k.tenant == tenant
    case Restore(email, tenant) => s.rows[k].email == email && k.tenant == tenant
    case Revoke(email, tenant) => s.rows[k].email == email && k.tenant == tenant
    case Remove(email, tenant) => s.rows[k].email == email && k.tenant == tenant
  }

  /** What each write does to a row that is there: nothing unless it names the row; otherwise a
      new role, a renewed invitation of a revoked member, an acceptance or refusal of an invited
      one, a suspension of an active one, its end, a revocation, or the row's end. */
  lemma RowAfterWrite(s: State, r: Request, k: Key)
    requires Inv(s) && Matching(s, r) && k in s.rows && !r.SetDefault?
    ensures var t, row := Next(s, r).0, s.rows[k];
      && (!Names(s, r, k) ==> k in t.rows && t.rows[k] == row)
      && (Names(s, r, k) ==>
            match r
            case Upsert(_, _, role) => k in t.rows && t.rows[k] == row.(role := role)
            case Invite(_, _, _, role) => k in t.rows && t.rows[k] ==
              if row.status == Revoked then row.(status := Invited, role := role, roles := [role]) else row
            case Accept(_, _) => k in t.rows && t.rows[k] ==
              if row.status == Invited then row.(status := Active) else row
            case Decline(_, _) => if row.status == Invited then k !in t.rows else k in t.rows && t.rows[k] == row
            case Suspend(_, _) => k in t.rows && t.rows[k] ==
              if row.status == Active then row.(status := Suspended) else row
            case Restore(_, _) => k in t.rows && t.rows[k] ==
              if row.status == Suspended then row.(status := Active) else row
            case Revoke(_, _) => k in t.rows && t.rows[k] == row.(status := Revoked)
            case Remove(_, _) => k !in t.rows
            case _ => true)
  {
    var row := s.rows[k];
    assert row.status !in {Invited, PendingApproval, Active, Suspended} ==> row.status == Revoked;
    assert row.status == Revoked ==> row.(status := Revoked) == row;
    if r.Upsert? {
      UpsertToRow(s, r, k);
    }
  }

  /** What the writes report: whether there was a row to accept or decline, to suspend, restore or
      revoke. */
  lemma WritesReport(s: State, r: Request)
    requires Inv(s)
    ensures r.Accept? || r.Decline? ==>
      var key := Key(r.identity, r.tenant);
      Next(s, r).1 == Changed(key in s.rows && s.rows[key].status == Invited)
    ensures r.Suspend? ==>
      Next(s, r).1 == Changed(exists k :: k in s.rows && Names(s, r, k) && s.rows[k].status == Active)
    ensures r.Restore? ==>
      Next(s, r).1 == Changed(exists k :: k in s.rows && Names(s, r, k) && s.rows[k].status == Suspended)
    ensures r.Revoke? ==>
      Next(s, r).1 == Changed(exists k :: k in s.rows && Names(s, r, k) && s.rows[k].status != Revoked)
  {
    var from: set<Status> := if r.Suspend? then {Active} else if r.Restore? then {Suspended}
                             else {Invited, PendingApproval, Active, Suspended};
    if r.Suspend? || r.Restore? || r.Revoke? {
      assert forall k :: At(s.rows, k, r.email, r.tenant) <==> k in s.rows && Names(s, r, k);
      assert Next(s, r).1 == Changed(Selects(s.rows, r.email, r.tenant, from));
    }
  }

  lemma UpsertToRow(s: State, r: Request, k: Key)
    requires Inv(s) && r.Upsert? && k in s.rows
    ensures var t, row := Next(s, r).0, s.rows[k];
      k in t.rows && t.rows[k] == if Names(s, r, k) then row.(role := r.role) else row
  {
    var s1 := WithIdentity(s, r.email);
    assert s1.rows == s.rows;
  }

  /** Rows come only by an upsert, active, or by an invitation, invited, for the named address and
      school; an address keeps its identity. */
  lemma NewRowsOfWrite(s: State, r: Request, k: Key)
    requires Inv(s) && Matching(s, r) && k !in s.rows && k in Next(s, r).0.rows
    ensures var t := Next(s, r).0;
      && (r.Upsert? || r.Invite?) && k.tenant == r.tenant && r.email in t.identities
      && k.identity == t.identities[r.email]
      && t.rows[k] == if r.Upsert? then Row(r.email, r.role, [], Active, false)
                      else Row(r.email, r.role, [r.role], Invited, false)
    ensures forall e :: e in s.identities ==>
      e in Next(s, r).0.identities && Next(s, r).0.identities[e] == s.identities[e]
  {
  }

  lemma {:induction false} RunKeepsInv(s: State, requests: seq<Request>)
    requires Inv(s) && Run(s, requests)
    ensures Inv(After(s, requests))
    decreases |requests|
  {
    if requests != [] {
      StepKeepsInv(s, requests[0]);
      RunKeepsInv(Next(s, requests[0]).0, requests[1..]);
    }
  }

  // ------------------------------------------------------------------
  // Defaults
  // ------------------------------------------------------------------

  ghost function DefaultsOf(s: State, identity: Identity): set<Key> {
    set k | k in s.rows && k.identity == identity && s.rows[k].isDefault
  }

  /** `set_default_membership` leaves exactly its target as default when it returns true, and no
      default at all when it returns false: the clearing is not undone. */
  lemma SetDefaultIsExact(s: State, identity: Identity, tenant: Tenant)
    ensures var (t, reply) := DefaultStep(s, identity, tenant);
      && (reply == Changed(true) ==> DefaultsOf(t, identity) == {Key(identity, tenant)})
      && (reply == Changed(false) ==> DefaultsOf(t, identity) == {})
      && (reply == Changed(true) <==> Key(identity, tenant) in s.rows && s.rows[Key(identity, tenant)].status.Active?)
      && (forall k :: k in s.rows && k.identity != identity ==> k in t.rows && t.rows[k] == s.rows[k])
      && (forall k :: k in s.rows ==> k in t.rows && t.rows[k] == s.rows[k].(isDefault := t.rows[k].isDefault))
  {
  }

  /** Over every run an identity has at most one default membership. */
  lemma AtMostOneDefault(s: State, requests: seq<Request>, identity: Identity)
    requires Inv(s) && Run(s, requests)
    ensures |DefaultsOf(After(s, requests), identity)| <= 1
  {
    RunKeepsInv(s, requests);
    var d := DefaultsOf(After(s, requests), identity);
    if d != {} {
      var k :| k in d;
      assert d == {k};
    }
  }

  // ------------------------------------------------------------------
  // Revocation
  // ------------------------------------------------------------------

  /** The row is there in every state of the run. */
  ghost predicate Kept(s: State, requests: seq<Request>, k: Key)
    requires Run(s, requests)
    decreases |requests|
  {
    k in s.rows && (requests == [] || Kept(Next(s, requests[0]).0, requests[1..], k))
  }

  predicate Invites(r: Request, k: Key) { r.Invite? && Key(r.identity, r.tenant) == k }

  predicate Accepts(r: Request, k: Key) { r.Accept? && Key(r.identity, r.tenant) == k }

  /** What one statement can do to the status of a revoked or invited row. */
  lemma StatusMoves(s: State, r: Request, k: Key)
    requires k in s.rows && k in Next(s, r).0.rows
    ensures var before, now := s.rows[k].status, Next(s, r).0.rows[k].status;
      && (before.Revoked? ==> now.Revoked? || (now.Invited? && Invites(r, k)))
      && (before.Invited? ==> now.Invited? || now.Revoked? || (now.Active? && Accepts(r, k)))
  {
  }

  /** One step into a run. */
  lemma Unfold(s: State, requests: seq<Request>, k: Key) returns (t: State)
    requires Inv(s) && Run(s, requests) && Kept(s, requests, k) && requests != []
    ensures t == Next(s, requests[0]).0 && Run(t, requests[1..]) && Kept(t, requests[1..], k)
    ensures After(s, requests) == After(t, requests[1..]) && k in t.rows
    ensures var before, now := s.rows[k].status, t.rows[k].status;
      && (before.Revoked? ==> now.Revoked? || (now.Invited? && Invites(requests[0], k)))
      && (before.Invited? ==> now.Invited? || now.Revoked? || (now.Active? && Accepts(requests[0], k)))
  {
    t := Next(s, requests[0]).0;
    assert k in t.rows;
    StatusMoves(s, requests[0], k);
  }

  /** How a row that is revoked or invited now, and active at the end, got there. */
  ghost predicate CameBack(requests: seq<Request>, k: Key, revoked: bool) {
    if revoked then exists i, j :: 0 <= i < j < |requests| && Invites(requests[i], k) && Accepts(requests[j], k)
    else exists j :: 0 <= j < |requests| && Accepts(requests[j], k)
  }

  lemma {:induction false} ComingBack(s: State, requests: seq<Request>, k: Key)
    requires Inv(s) && Run(s, requests) && Kept(s, requests, k)
    requires s.rows[k].status.Revoked? || s.rows[k].status.Invited?
    requires k in After(s, requests).rows && After(s, requests).rows[k].status.Active?
    ensures CameBack(requests, k, s.rows[k].status.Revoked?)
    decreases |requests|
  {
    assert requests != [];
    var t := Unfold(s, requests, k);
    if t.rows[k].status.Active? {
      assert Accepts(requests[0], k);
    } else {
      StepKeepsInv(s, requests[0]);
      ComingBack(t, requests[1..], k);
      Shift(requests, k, s.rows[k].status.Revoked?, t.rows[k].status.Revoked?);
    }
  }

  lemma Shift(requests: seq<Request>, k: Key, revoked: bool, revokedNext: bool)
    requires requests != [] && CameBack(requests[1..], k, revokedNext)
    requires revoked && !revokedNext ==> Invites(requests[0], k)
    ensures CameBack(requests, k, revoked)
  {
    var rest := requests[1..];
    if revokedNext {
      var i, j :| 0 <= i < j < |rest| && Invites(rest[i], k) && Accepts(rest[j], k);
      assert Invites(requests[i + 1], k) && Accepts(requests[j + 1], k);
    } else {
      var j :| 0 <= j < |rest| && Accepts(rest[j], k);
      assert Accepts(requests[j + 1], k);
      assert revoked ==> Invites(requests[0], k);
    }
  }

  /** While its row is not deleted, a revoked membership becomes active again only through a
      fresh invitation followed by its acceptance, whatever else happens in between. */
  lemma RevokedNeedsInvitation(s: State, requests: seq<Request>, k: Key)
    requires Inv(s) && Run(s, requests) && Kept(s, requests, k) && s.rows[k].status.Revoked?
    requires k in After(s, requests).rows && After(s, requests).rows[k].status.Active?
    ensures exists i, j :: 0 <= i < j < |requests| && Invites(requests[i], k) && Accepts(requests[j], k)
  {
    ComingBack(s, requests, k);
  }

  /** Deleting the row forgets the revocation: the next role upsert re-creates it as active. */
  lemma RemovalForgetsRevocation(s: State, k: Key, role: string)
    requires Inv(s) && k in s.rows && s.rows[k].status.Revoked?
    ensures var e := s.rows[k].email;
      var s1 := Next(s, Remove(e, k.tenant)).0;
      var s2 := Next(s1, Upsert(e, k.tenant, role)).0;
      k !in s1.rows && k in s2.rows && s2.rows[k].status.Active?
  {
  }
}

/** The repository methods over the table itself. */
module MembershipRepository {
  import opened Wrappers
  import opened MembershipModel

  class Repository {
    var identities: map<Email, Identity>
    var rows: Table
    var nextIdentity: Identity

    ghost function Abs(): State
      reads this
    {
      State(identities, rows, nextIdentity)
    }

    ghost predicate Valid()
      reads this
    {
      Inv(Abs())
    }

    constructor ()
      ensures Valid() && identities == map[] && rows == map[]
    {
      identities, rows, nextIdentity := map[], map[], 0;
    }

    method GetOrCreateIdentity(email: Email) returns (identity: Identity)
      requires Valid()
      modifies this`identities, this`nextIdentity
      ensures Abs() == WithIdentity(old(Abs()), email)
      ensures email in identities && identity == identities[email]
    {
      if email !in identities {
        identities := identities[email := nextIdentity];
        nextIdentity := nextIdentity + 1;
      }
      identity := identities[email];
    }

    /** `upsert_user_tenant_map` of both repositories: arbitrated on (email, tenant_id), yet the
        primary key (identity_id, tenant_id) is never violated. */
    method UpsertUserTenantMap(email: Email, tenant: Tenant, role: string)
      requires Valid()
      modifies this
      ensures Valid() && Abs() == Next(old(Abs()), Upsert(email, tenant, role)).0
      ensures Next(old(Abs()), Upsert(email, tenant, role)).1.Changed?
    {
      StepKeepsInv(Abs(), Upsert(email, tenant, role));
      WritesNeverCollide(Abs(), Upsert(email, tenant, role));
      var identity := GetOrCreateIdentity(email);
      if exists k :: k in rows && At(rows, k, email, tenant) {
        rows := map k | k in rows :: if At(rows, k, email, tenant) then rows[k].(role := role) else rows[k];
      } else {
        rows := rows[Key(identity, tenant) := Row(email, role, [], Active, false)];
      }
    }

    /** `create_invited_membership`: arbitrated on (identity_id, tenant_id). */
    method CreateInvitedMembership(identity: Identity, email: Email, tenant: Tenant, role: string)
      requires Valid() && Matching(Abs(), Invite(identity, email, tenant, role))
      modifies this
      ensures Valid() && Abs() == Next(old(Abs()), Invite(identity, email, tenant, role)).0
      ensures Next(old(Abs()), Invite(identity, email, tenant, role)).1.Changed?
    {
      StepKeepsInv(Abs(), Invite(identity, email, tenant, role));
      WritesNeverCollide(Abs(), Invite(identity, email, tenant, role));
      var key := Key(identity, tenant);
      if key in rows {
        if rows[key].status.Revoked? {
          rows := rows[key := rows[key].(status := Invited, role := role, roles := [role])];
        }
      } else {
        rows := rows[key := Row(email, role, [role], Invited, false)];
      }
    }

    method AcceptMembership(identity: Identity, tenant: Tenant) returns (hit: bool)
      requires Valid()
      modifies this`rows
      ensures Valid() && (Abs(), Changed(hit)) == Next(old(Abs()), Accept(identity, tenant))
    {
      StepKeepsInv(Abs(), Accept(identity, tenant));
      var key := Key(identity, tenant);
      hit := key in rows && rows[key].status.Invited?;
      if hit {
        rows := rows[key := rows[key].(status := Active)];
      }
    }

    method DeclineMembership(identity: Identity, tenant: Tenant) returns (hit: bool)
      requires Valid()
      modifies this`rows
      ensures Valid() && (Abs(), Changed(hit)) == Next(old(Abs()), Decline(identity, tenant))
    {
      StepKeepsInv(Abs(), Decline(identity, tenant));
      var key := Key(identity, tenant);
      hit := key in rows && rows[key].status.Invited?;
      if hit {
        rows := rows - {key};
      }
    }

    /** `set_default_membership`: clear every row of the identity, then set the active target. */
    method SetDefaultMembership(identity: Identity, tenant: Tenant) returns (hit: bool)
      requires Valid()
      modifies this`rows
      ensures Valid() && (Abs(), Changed(hit)) == Next(old(Abs()), SetDefault(identity, tenant))
      ensures DefaultsOf(Abs(), identity) == if hit then {Key(identity, tenant)} else {}
    {
      StepKeepsInv(Abs(), SetDefault(identity, tenant));
      SetDefaultIsExact(Abs(), identity, tenant);
      rows := map k | k in rows :: if k.identity == identity then rows[k].(isDefault := false) else rows[k];
      var key := Key(identity, tenant);
      hit := key in rows && rows[key].status.Active?;
      if hit {
        rows := rows[key := rows[key].(isDefault := true)];
      }
    }

    /** The address-keyed status updates report success when exactly one row was hit. */
    method UpdateStatus(email: Email, tenant: Tenant, from: set<Status>, status: Status) returns (hit: bool)
      requires Valid()
      modifies this`rows
      ensures rows == SetStatus(old(rows), email, tenant, from, status)
      ensures hit <==> Selects(old(rows), email, tenant, from)
    {
      var affected := set k | k in rows && At(rows, k, email, tenant) && rows[k].status in from;
      if k :| k in affected {
        forall l | l in affected
          ensures l == k
        {
          BothKeysNameTheRow(Abs(), k, l);
        }
        assert affected == {k};
        assert At(rows, k, email, tenant) && rows[k].status in from;
      } else {
        forall k
          ensures !(At(rows, k, email, tenant) && rows[k].status in from)
        {
          assert k !in affected;
        }
      }
      hit := |affected| == 1;
      rows := SetStatus(rows, email, tenant, from, status);
    }

    method SuspendMembership(email: Email, tenant: Tenant) returns (hit: bool)
      requires Valid()
      modifies this`rows
      ensures Valid() && (Abs(), Changed(hit)) == Next(old(Abs()), Suspend(email, tenant))
    {
      StepKeepsInv(Abs(), Suspend(email, tenant));
      hit := UpdateStatus(email, tenant, {Active}, Suspended);
    }

    method RestoreMembership(email: Email, tenant: Tenant) returns (hit: bool)
      requires Valid()
      modifies this`rows
      ensures Valid() && (Abs(), Changed(hit)) == Next(old(Abs()), Restore(email, tenant))
    {
      StepKeepsInv(Abs(), Restore(email, tenant));
      hit := UpdateStatus(email, tenant, {Suspended}, Active);
    }

    method RevokeMembership(email: Email, tenant: Tenant) returns (hit: bool)
      requires Valid()
      modifies this`rows
      ensures Valid() && (Abs(), Changed(hit)) == Next(old(Abs()), Revoke(email, tenant))
    {
      StepKeepsInv(Abs(), Revoke(email, tenant));
      hit := UpdateStatus(email, tenant, {Invited, PendingApproval, Active, Suspended}, Revoked);
    }

    method RemoveUserTenantMap(email: Email, tenant: Tenant)
      requires Valid()
      modifies this`rows
      ensures Valid() && Abs() == Next(old(Abs()), Remove(email, tenant)).0
    {
      StepKeepsInv(Abs(), Remove(email, tenant));
      rows := map k | k in rows && !At(rows, k, email, tenant) :: rows[k];
    }
  }
}

/** cp_0003 and cp_0004: one identity per address, the table re-keyed onto it, and
    `parent_tenant_links` folded into the same edge. */
module IdentityMigration {
  import opened Wrappers
  import opened MembershipModel

  /** `user_tenant_map` under its cp_0002 key. */
  datatype OldKey = OldKey(email: Email, tenant: Tenant)

  datatype Stores = Stores(
    members: map<OldKey, string>,       // role by (email, tenant_id)
    parents: map<nat, Email>,           // address by parent id, unique
    superAdmins: set<Email>,
    links: set<(nat, Tenant)>,          // parent_tenant_links
    decided: set<Email>)                // identity_merge_decisions

  ghost predicate StoresOk(s: Stores) {
    && (forall p, q :: p in s.parents && q in s.parents && s.parents[p] == s.parents[q] ==> p == q)
    && (forall l :: l in s.links ==> l.0 in s.parents)
  }

  function MemberEmails(s: Stores): set<Email> { set k | k in s.members :: k.email }

  function AllEmails(s: Stores): set<Email> { MemberEmails(s) + s.parents.Values + s.superAdmins }

  /** A membership that is not merely a parent's own mirror row. */
  predicate IsMember(s: Stores, email: Email) {
    exists k :: k in s.members && k.email == email && s.members[k] != "parent"
  }

  /** The address appears in two of the three account stores. */
  predicate Collides(s: Stores, email: Email) {
    || (email in s.parents.Values && email in s.superAdmins)
    || (email in s.parents.Values && IsMember(s, email))
    || (email in s.superAdmins && IsMember(s, email))
  }

  /** The gate of cp_0003: it aborts exactly when some collision has no recorded decision. */
  method Gate(s: Stores) returns (undecided: set<Email>)
    ensures undecided == {} <==> forall e :: Collides(s, e) ==> e in s.decided
    ensures forall e :: e in undecided <==> Collides(s, e) && e !in s.decided
  {
    var stores := AllEmails(s);
    undecided := set e | e in stores && Collides(s, e) && e !in s.decided;
    forall e | Collides(s, e)
      ensures e in stores
    {
      if IsMember(s, e) {
        var k :| k in s.members && k.email == e && s.members[k] != "parent";
        assert k.email in MemberEmails(s);
      }
    }
    if undecided == {} {
      forall e | Collides(s, e)
        ensures e in s.decided
      {
        assert e !in undecided;
      }
    }
  }

  /** The INSERT of cp_0003, `ON CONFLICT (email) DO NOTHING`. */
  method BackfillIdentities(s: Stores, identities: map<Email, Identity>, next: Identity)
    returns (identities': map<Email, Identity>, next': Identity)
    requires IdentitiesOk(identities, next)
    ensures IdentitiesOk(identities', next')
    ensures identities'.Keys == identities.Keys + AllEmails(s)
    ensures forall e :: e in identities ==> identities'[e] == identities[e]
  {
    identities', next' := identities, next;
    var todo := AllEmails(s);
    while todo != {}
      invariant todo <= AllEmails(s)
      invariant IdentitiesOk(identities', next')
      invariant identities'.Keys == identities.Keys + (AllEmails(s) - todo)
      invariant forall e :: e in identities ==> identities'[e] == identities[e]
      decreases todo
    {
      var e :| e in todo;
      if e !in identities' {
        identities' := identities'[e := next'];
        next' := next' + 1;
      }
      todo := todo - {e};
    }
  }

  function NewRow(o: OldKey, role: string): Row { Row(o.email, role, [role], Active, false) }

  function NewKey(identities: map<Email, Identity>, o: OldKey): Key
    requires o.email in identities
  {
    Key(identities[o.email], o.tenant)
  }

  /** `rows` holds the old rows `done`, one for one, each under its address's identity. */
  ghost predicate Rekeyed(members: map<OldKey, string>, done: set<OldKey>, identities: map<Email, Identity>,
                          rows: Table) {
    && (forall o :: o in done ==>
          o in members && o.email in identities && NewKey(identities, o) in rows
          && rows[NewKey(identities, o)] == NewRow(o, members[o]))
    && (forall k :: k in rows ==>
          rows[k].email in identities && k.identity == identities[rows[k].email]
          && OldKey(rows[k].email, k.tenant) in done)
  }

  lemma RekeyedMeansDone(members: map<OldKey, string>, done: set<OldKey>, identities: map<Email, Identity>,
                         next: Identity,
                         rows: Table, o: OldKey)
    requires IdentitiesOk(identities, next) && Rekeyed(members, done, identities, rows) && o.email in identities
    ensures NewKey(identities, o) in rows ==> o in done
  {
    var k := NewKey(identities, o);
    if k in rows {
      assert rows[k].email == o.email;
      assert OldKey(rows[k].email, k.tenant) == o;
    }
  }

  lemma RekeyOne(members: map<OldKey, string>, done: set<OldKey>, identities: map<Email, Identity>, next: Identity,
                 rows: Table, o: OldKey)
    requires IdentitiesOk(identities, next) && Rekeyed(members, done, identities, rows)
    requires o in members && o !in done && o.email in identities
    ensures NewKey(identities, o) !in rows
    ensures Rekeyed(members, done + {o}, identities, rows[NewKey(identities, o) := NewRow(o, members[o])])
  {
    var k := NewKey(identities, o);
    RekeyedMeansDone(members, done, identities, next, rows, o);
    forall p | p in done
      ensures NewKey(identities, p) != k
    {
      assert NewKey(identities, p) in rows;
    }
  }

  lemma RekeyedKeepsInv(members: map<OldKey, string>, identities: map<Email, Identity>, next: Identity, rows: Table)
    requires IdentitiesOk(identities, next) && Rekeyed(members, members.Keys, identities, rows)
    ensures Inv(State(identities, rows, next))
  {
    forall k | k in rows
      ensures !rows[k].isDefault
    {
      assert NewKey(identities, OldKey(rows[k].email, k.tenant)) == k;
    }
  }

  /** The UPDATE and key swap of cp_0004.  It never finds two rows under one new key. */
  method Rekey(members: map<OldKey, string>, identities: map<Email, Identity>, next: Identity) returns (rows: Table)
    requires IdentitiesOk(identities, next) && forall o :: o in members ==> o.email in identities
    ensures Rekeyed(members, members.Keys, identities, rows)
    ensures Inv(State(identities, rows, next))
  {
    rows := map[];
    var todo := members.Keys;
    ghost var done: set<OldKey> := {};
    while todo != {}
      invariant todo + done == members.Keys && todo !! done
      invariant Rekeyed(members, done, identities, rows)
      decreases todo
    {
      var o :| o in todo;
      RekeyOne(members, done, identities, next, rows, o);
      rows := rows[NewKey(identities, o) := NewRow(o, members[o])];
      todo, done := todo - {o}, done + {o};
    }
    assert done == members.Keys;
    RekeyedKeepsInv(members, identities, next, rows);
  }

  /** `INSERT ... SELECT` of the parent links, `ON CONFLICT (identity_id, tenant_id) DO NOTHING`. */
  method FoldLinks(s: Stores, identities: map<Email, Identity>, next: Identity, rows: Table) returns (folded: Table)
    requires StoresOk(s) && Inv(State(identities, rows, next))
    requires forall p :: p in s.parents ==> s.parents[p] in identities
    ensures Inv(State(identities, folded, next))
    ensures forall k :: k in rows ==> k in folded && folded[k] == rows[k]
    ensures forall k :: k in folded && k !in rows ==>
      folded[k].role == "parent" && folded[k].status.Active? && Linked(s, folded[k].email, k.tenant)
    ensures forall l :: l in s.links ==> Key(identities[s.parents[l.0]], l.1) in folded
  {
    folded := rows;
    var todo := s.links;
    while todo != {}
      invariant todo <= s.links
      invariant Inv(State(identities, folded, next))
      invariant forall k :: k in rows ==> k in folded && folded[k] == rows[k]
      invariant forall k :: k in folded && k !in rows ==>
                  folded[k].role == "parent" && folded[k].status.Active? && Linked(s, folded[k].email, k.tenant)
      invariant forall l :: l in s.links - todo ==> Key(identities[s.parents[l.0]], l.1) in folded
      decreases todo
    {
      var l :| l in todo;
      var email := s.parents[l.0];
      var key := Key(identities[email], l.1);
      assert Linked(s, email, l.1);
      if key !in folded {
        InsertKeepsInv(State(identities, folded, next), key, Row(email, "parent", ["parent"], Active, false));
        folded := folded[key := Row(email, "parent", ["parent"], Active, false)];
      }
      todo := todo - {l};
    }
  }

  /** Some parent with this address is linked to the school. */
  predicate Linked(s: Stores, email: Email, tenant: Tenant) {
    exists l :: l in s.links && l.0 in s.parents && s.parents[l.0] == email && l.1 == tenant
  }

  /** The role an address holds at a school before the migration, as requests resolve it: its
      membership row's role, else "parent" for a bare link. */
  function RoleBefore(s: Stores, email: Email, tenant: Tenant): Option<string> {
    if OldKey(email, tenant) in s.members then Some(s.members[OldKey(email, tenant)])
    else if Linked(s, email, tenant) then Some("parent")
    else None
  }

  /** The role the one remaining table gives afterwards. */
  function RoleAfter(identities: map<Email, Identity>, rows: Table, email: Email, tenant: Tenant): Option<string> {
    if email in identities && Key(identities[email], tenant) in rows
    then Some(rows[Key(identities[email], tenant)].role) else None
  }

  /** The two migrations together: they establish the two-key invariant, and every address holds
      the same role at every school as before, now read from one table. */
  method Migrate(s: Stores) returns (identities: map<Email, Identity>, rows: Table, next: Identity)
    requires StoresOk(s)
    ensures Inv(State(identities, rows, next))
    ensures identities.Keys == AllEmails(s)
    ensures forall e, t :: RoleAfter(identities, rows, e, t) == RoleBefore(s, e, t)
  {
    identities, next := BackfillIdentities(s, map[], 0);
    forall o | o in s.members
      ensures o.email in identities
    {
      assert o.email in MemberEmails(s);
    }
    var rekeyed := Rekey(s.members, identities, next);
    rows := FoldLinks(s, identities, next, rekeyed);
    forall e, t
      ensures RoleAfter(identities, rows, e, t) == RoleBefore(s, e, t)
    {
      RolePreserved(s, identities, next, rekeyed, rows, e, t);
    }
  }

  lemma RolePreserved(s: Stores, identities: map<Email, Identity>, next: Identity, rekeyed: Table, rows: Table,
                      e: Email, t: Tenant)
    requires StoresOk(s) && Inv(State(identities, rows, next)) && identities.Keys == AllEmails(s)
    requires Rekeyed(s.members, s.members.Keys, identities, rekeyed)
    requires forall k :: k in rekeyed ==> k in rows && rows[k] == rekeyed[k]
    requires forall k :: k in rows && k !in rekeyed ==> rows[k].role == "parent" && Linked(s, rows[k].email, k.tenant)
    requires forall l :: l in s.links ==> Key(identities[s.parents[l.0]], l.1) in rows
    ensures RoleAfter(identities, rows, e, t) == RoleBefore(s, e, t)
  {
    var o := OldKey(e, t);
    LinkedHasRow(s, identities, rows, e, t);
    if o in s.members {
      assert NewKey(identities, o) in rekeyed;
    } else if e in identities && Key(identities[e], t) in rows {
      var k := Key(identities[e], t);
      assert rows[k].email == e;
      assert k !in rekeyed;
    }
  }

  lemma LinkedHasRow(s: Stores, identities: map<Email, Identity>, rows: Table, e: Email, t: Tenant)
    requires forall p :: p in s.parents ==> s.parents[p] in identities
    requires forall l :: l in s.links && l.0 in s.parents ==> Key(identities[s.parents[l.0]], l.1) in rows
    ensures Linked(s, e, t) ==> e in identities && Key(identities[e], t) in rows
  {
    if Linked(s, e, t) {
      var l :| l in s.links && l.0 in s.parents && s.parents[l.0] == e && l.1 == t;
      assert Key(identities[s.parents[l.0]], l.1) in rows;
    }
  }

  /** Running cp_0004 again, as the inline schema setup does, changes nothing. */
  lemma FoldingAgainIsANoOp(s: Stores, identities: map<Email, Identity>, next: Identity, rows: Table, again: Table)
    requires StoresOk(s) && Inv(State(identities, rows, next)) && Inv(State(identities, again, next))
    requires forall p :: p in s.parents ==> s.parents[p] in identities
    requires forall l :: l in s.links ==> Key(identities[s.parents[l.0]], l.1) in rows
    requires forall k :: k in rows ==> k in again && again[k] == rows[k]
    requires forall k :: k in again && k !in rows ==> Linked(s, again[k].email, k.tenant)
    ensures again == rows
  {
    forall k | k in again
      ensures k in rows
    {
      LinkedHasRow(s, identities, rows, again[k].email, k.tenant);
    }
  }
}
