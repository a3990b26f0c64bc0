/** Password login across several schools: `login_user`, `login_redeem` and their helpers in
    `app/domains/auth/service.py`, over the control-plane and school account stores.

    Password verification is a parameter `verify(password, hash)`; nothing is assumed of it. */
module LoginModel {
  import opened Wrappers

  type Tenant = string
  type Email = string
  type Hash = string
  type Token = nat
  type Time = nat
  type Verifier = (string, Hash) -> bool

  const CHALLENGE_SECONDS: Time := 120
  const MAX_CANDIDATES := 8
  const PADDING_FLOOR := 3

  /** A row of one school's `users` table; a missing password hash is the empty string. */
  datatype User = User(id: nat, hash: Hash, role: string, roles: seq<string>, permissions: seq<string>)

  /** A row of `parents` or `super_admins`. */
  datatype Account = Account(id: nat, hash: Hash)

  datatype Accounts = Accounts(
    memberships: map<Email, map<Tenant, string>>,   // user_tenant_map
    parents: map<Email, Account>,
    links: set<(nat, Tenant)>,                      // parent_tenant_links
    superAdmins: map<Email, Account>,
    users: map<Tenant, map<Email, User>>,
    tenants: seq<Tenant>,                           // get_all_tenants, in its order
    identities: seq<Email>)                         // an identity's id is its position

  datatype Kind = SuperAdmin | LinkedParent | TenantUser

  datatype Candidate = Candidate(tenant: Tenant, kind: Kind, hash: Hash, accountId: nat, role: string)

  // ------------------------------------------------------------------
  // Which stores a login is checked against
  // ------------------------------------------------------------------

  function MembershipTenants(db: Accounts, email: Email): set<Tenant> {
    if email in db.memberships then set t | t in db.memberships[email] && t != "" else {}
  }

  function LinkedTenants(db: Accounts, email: Email): set<Tenant> {
    if email in db.parents then set l | l in db.links && l.0 == db.parents[email].id :: l.1 else {}
  }

  /** `_enumerate_login_tenants`: the empty string stands for the super-admin store. */
  function TenantIds(db: Accounts, email: Email): set<Tenant> {
    MembershipTenants(db, email) + LinkedTenants(db, email) + if email in db.superAdmins then {""} else {}
  }

  function UserAt(db: Accounts, email: Email, tenant: Tenant): Option<User> {
    if tenant in db.users && email in db.users[tenant] then Some(db.users[tenant][email]) else None
  }

  predicate IsLinked(db: Accounts, email: Email, tenant: Tenant) {
    email in db.parents && (db.parents[email].id, tenant) in db.links
  }

  function LocalCandidate(db: Accounts, email: Email, tenant: Tenant): Option<Candidate> {
    var u := UserAt(db, email, tenant);
    if u.Some? && u.value.hash != "" then Some(Candidate(tenant, TenantUser, u.value.hash, u.value.id, u.value.role))
    else None
  }

  /** `_fetch_login_candidate`: the one store whose hash decides this school. */
  function Fetch(db: Accounts, email: Email, tenant: Tenant): Option<Candidate> {
    if tenant == "" && email in db.superAdmins then
      Some(Candidate("", SuperAdmin, db.superAdmins[email].hash, db.superAdmins[email].id, "super_admin"))
    else if IsLinked(db, email, tenant) then
      Some(Candidate(tenant, LinkedParent, db.parents[email].hash, db.parents[email].id, "parent"))
    else LocalCandidate(db, email, tenant)
  }

  /** `_legacy_scan_for_candidate`: the first listed school with a usable local account. */
  function LegacyScan(db: Accounts, email: Email, tenants: seq<Tenant>): Option<Candidate> {
    if tenants == [] then None
    else if tenants[0] != "" && LocalCandidate(db, email, tenants[0]).Some? then LocalCandidate(db, email, tenants[0])
    else LegacyScan(db, email, tenants[1..])
  }

  function FetchAll(db: Accounts, email: Email, order: seq<Tenant>): seq<Candidate> {
    if order == [] then []
    else
      var c := Fetch(db, email, order[0]);
      (if c.Some? then [c.value] else []) + FetchAll(db, email, order[1..])
  }

  function Verified(verify: Verifier, password: string, candidates: seq<Candidate>): seq<Candidate> {
    if candidates == [] then []
    else (if verify(password, candidates[0].hash) then [candidates[0]] else [])
         + Verified(verify, password, candidates[1..])
  }

  /** The candidates an unnamed login matches.  `order` is the iteration order of the
      tenant-id set, which Python leaves open. */
  function Matched(verify: Verifier, db: Accounts, email: Email, password: string, order: seq<Tenant>): seq<Candidate> {
    var sample := if |order| <= MAX_CANDIDATES then order else order[..MAX_CANDIDATES];
    Verified(verify, password, FetchAll(db, email, sample))
  }

  /** The school's own row of this email has this password. */
  predicate LocalOpens(verify: Verifier, db: Accounts, email: Email, password: string, tenant: Tenant) {
    && tenant in db.users && email in db.users[tenant]
    && db.users[tenant][email].hash != "" && verify(password, db.users[tenant][email].hash)
  }

  /** The password verifies against the one store that decides `tenant`: the super admin's for the
      empty tenant, else the parent's where a link confirms one, else the school's own. */
  predicate Opens(verify: Verifier, db: Accounts, email: Email, password: string, tenant: Tenant) {
    if tenant == "" && email in db.superAdmins then verify(password, db.superAdmins[email].hash)
    else if email in db.parents && (db.parents[email].id, tenant) in db.links then
      verify(password, db.parents[email].hash)
    else LocalOpens(verify, db, email, password, tenant)
  }

  lemma FetchDecides(verify: Verifier, db: Accounts, email: Email, password: string, tenant: Tenant)
    ensures var c := Fetch(db, email, tenant);
      Opens(verify, db, email, password, tenant) <==> c.Some? && verify(password, c.value.hash)
  {
  }

  /** `order` lists every tenant id once. */
  predicate Enumerates(order: seq<Tenant>, ids: set<Tenant>) {
    (forall i, j :: 0 <= i < j < |order| ==> order[i] != order[j]) && (set t | t in order) == ids
  }

  // ------------------------------------------------------------------
  // Completing a login
  // ------------------------------------------------------------------

  function IndexOf(emails: seq<Email>, email: Email): (i: nat)
    ensures i <= |emails|
    ensures i < |emails| ==> emails[i] == email
    ensures i == |emails| ==> email !in emails
    ensures forall j :: 0 <= j < i ==> emails[j] != email
  {
    if emails == [] then 0 else if emails[0] == email then 0 else 1 + IndexOf(emails[1..], email)
  }

  /** `get_or_create_identity`. */
  function WithIdentity(db: Accounts, email: Email): Accounts {
    if email in db.identities then db else db.(identities := db.identities + [email])
  }

  function Upserted(db: Accounts, email: Email, tenant: Tenant, role: string): Accounts {
    var held := if email in db.memberships then db.memberships[email] else map[];
    db.(memberships := db.memberships[email := held[tenant := role]])
  }

  function WithLocalParent(db: Accounts, email: Email, tenant: Tenant, hash: Hash, freshId: nat): Accounts {
    if UserAt(db, email, tenant).Some? then db
    else
      var local := if tenant in db.users then db.users[tenant] else map[];
      db.(users := db.users[tenant := local[email := User(freshId, hash, "parent", [], [])]])
  }

  /** The account-store side of `_complete_login`. */
  function Completed(db: Accounts, email: Email, c: Candidate, freshId: nat): Accounts {
    var db1 := WithIdentity(db, email);
    match c.kind
    case SuperAdmin => db1
    case LinkedParent => Upserted(WithLocalParent(db1, email, c.tenant, c.hash, freshId), email, c.tenant, "parent")
    case TenantUser => Upserted(db1, email, c.tenant, c.role)
  }

  /** `list(dict.fromkeys(xs))`: each role once, in order of first appearance. */
  function Distinct(xs: seq<string>): (r: seq<string>)
    ensures forall x :: x in r <==> x in xs
    ensures forall i, j :: 0 <= i < j < |r| ==> r[i] != r[j]
  {
    if xs == [] then []
    else
      var init := Distinct(xs[..|xs| - 1]);
      assert xs == xs[..|xs| - 1] + [xs[|xs| - 1]];
      if xs[|xs| - 1] in init then init else init + [xs[|xs| - 1]]
  }

  datatype Local = Local(userId: nat, role: string, roles: seq<string>)

  function RolesOf(u: User): seq<string> {
    Distinct((if u.role != "" then [u.role] else []) + u.roles + u.permissions)
  }

  /** `_resolve_local_account`. */
  function Resolve(db: Accounts, identity: nat, tenant: Tenant, hint: string): Option<Local> {
    if identity >= |db.identities| then None
    else
      var email := db.identities[identity];
      if tenant == "" || hint == "super_admin" then
        if email in db.superAdmins then Some(Local(db.superAdmins[email].id, "super_admin", ["super_admin"])) else None
      else
        var u := UserAt(db, email, tenant);
        if u.None? then None
        else if hint == "parent" && u.value.role == "parent" then Some(Local(u.value.id, "parent", ["parent"]))
        else Some(Local(u.value.id, u.value.role, RolesOf(u.value)))
  }

  // ------------------------------------------------------------------
  // Requests
  // ------------------------------------------------------------------

  datatype Challenge = Challenge(identity: nat, matched: seq<Tenant>, expiresAt: Time, consumed: bool,
                                 attempt: nat)   // history: the login that minted it

  /** History: what was submitted, and the stores as they were. */
  datatype Attempt = Attempt(email: Email, password: string, db: Accounts, at: Time)

  /** A minted session, with the attempt whose password check it rests on. */
  datatype Session = Session(tenant: Tenant, email: Email, role: string, at: Time, attempt: nat, via: Option<Token>)

  datatype State = State(
    db: Accounts, now: Time, challenges: map<Token, Challenge>, nextId: nat,
    attempts: seq<Attempt>, sessions: seq<Session>)

  datatype Request =
    | Login(email: Email, password: string, named: Tenant, order: seq<Tenant>)   // "" when no school is named
    | Redeem(token: Token, tenant: Tenant)
    | Tick(seconds: nat)
    | Edit(db: Accounts)                                                         // any other writer

  datatype Reply =
    | NewSession(tenant: Tenant)
    | SelectTenant(token: Token, choices: seq<Tenant>)
    | Refused
    | Quiet

  /** Identities are never renamed or deleted; everything else may change between requests. */
  predicate Allowed(s: State, r: Request) {
    match r
    case Login(email, _, _, order) => Enumerates(order, TenantIds(s.db, email))
    case Edit(db) => s.db.identities <= db.identities
    case _ => true
  }

  function TenantsOf(cs: seq<Candidate>): (r: seq<Tenant>)
    ensures |r| == |cs| && forall i :: 0 <= i < |cs| ==> r[i] == cs[i].tenant
  {
    seq(|cs|, i requires 0 <= i < |cs| => cs[i].tenant)
  }

  /** The candidate a login lands in without a further question, if there is one. */
  function Chosen(verify: Verifier, db: Accounts, r: Request): Option<Candidate>
    requires r.Login?
  {
    var ids := TenantIds(db, r.email);
    if r.named != "" then
      var c := if r.named in ids then Fetch(db, r.email, r.named) else None;
      if c.Some? && verify(r.password, c.value.hash) then c else None
    else if ids == {} then
      var c := LegacyScan(db, r.email, db.tenants);
      if c.Some? && verify(r.password, c.value.hash) then c else None
    else
      var m := Matched(verify, db, r.email, r.password, r.order);
      if |m| == 1 then Some(m[0]) else None
  }

  predicate MustSelect(verify: Verifier, db: Accounts, r: Request)
    requires r.Login?
  {
    r.named == "" && TenantIds(db, r.email) != {} && |Matched(verify, db, r.email, r.password, r.order)| > 1
  }

  function SessionRole(c: Candidate): string {
    if c.kind.SuperAdmin? then "super_admin" else if c.kind.LinkedParent? then "parent" else c.role
  }

  /** The three ways a login that has just been attempted ends. */
  function EndLogin(s: State, email: Email, chosen: Option<Candidate>, choices: seq<Candidate>): (State, Reply)
    requires |s.attempts| > 0
  {
    var k := |s.attempts| - 1;
    if chosen.Some? then
      var c := chosen.value;
      (s.(db := Completed(s.db, email, c, s.nextId), nextId := s.nextId + 1,
          sessions := s.sessions + [Session(c.tenant, email, SessionRole(c), s.now, k, None)]),
       NewSession(c.tenant))
    else if choices != [] then
      var db := WithIdentity(s.db, email);
      var challenge := Challenge(IndexOf(db.identities, email), TenantsOf(choices), s.now + CHALLENGE_SECONDS, false,
                                 k);
      (s.(db := db, challenges := s.challenges[s.nextId := challenge], nextId := s.nextId + 1),
       SelectTenant(s.nextId, TenantsOf(choices)))
    else (s, Refused)
  }

  /** The candidates the caller is asked to choose from. */
  function Choices(verify: Verifier, db: Accounts, r: Request): seq<Candidate>
    requires r.Login?
  {
    if MustSelect(verify, db, r) then Matched(verify, db, r.email, r.password, r.order) else []
  }

  function ServeLogin(verify: Verifier, s: State, r: Request): (State, Reply)
    requires r.Login?
  {
    EndLogin(s.(attempts := s.attempts + [Attempt(r.email, r.password, s.db, s.now)]), r.email,
             Chosen(verify, s.db, r), Choices(verify, s.db, r))
  }

  predicate Redeemable(s: State, token: Token) {
    token in s.challenges && !s.challenges[token].consumed && s.now < s.challenges[token].expiresAt
  }

  function HintRole(db: Accounts, identity: nat, tenant: Tenant): string {
    if tenant == "" then "super_admin"
    else if identity < |db.identities| && db.identities[identity] in db.memberships
            && tenant in db.memberships[db.identities[identity]]
    then db.memberships[db.identities[identity]][tenant]
    else ""
  }

  function ServeRedeem(s: State, token: Token, tenant: Tenant): (State, Reply) {
    if !Redeemable(s, token) then (s, Refused)
    else
      var ch := s.challenges[token];
      var s1 := s.(challenges := s.challenges[token := ch.(consumed := true)]);
      var local := Resolve(s.db, ch.identity, tenant, HintRole(s.db, ch.identity, tenant));
      if tenant in ch.matched && local.Some? then
        (s1.(sessions := s.sessions +
               [Session(tenant, s.db.identities[ch.identity], local.value.role, s.now, ch.attempt, Some(token))]),
         NewSession(tenant))
      else (s1, Refused)
  }

  /** Who is the super admin a redemption for this school may lead to. */
  predicate RedeemsAsSuperAdmin(db: Accounts, identity: nat, tenant: Tenant) {
    tenant == "" || HintRole(db, identity, tenant) == "super_admin"
  }

  /** A redemption opens a session exactly if the school is a choice of the challenge and the
      account is still there; the session carries the role the account has now, whatever the
      challenge's login saw. */
  lemma RedeemedRoleIsLive(s: State, token: Token, tenant: Tenant)
    requires Redeemable(s, token) && s.challenges[token].identity < |s.db.identities|
    ensures var ch := s.challenges[token];
      var email := s.db.identities[ch.identity];
      var account := UserAt(s.db, email, tenant);
      var admin := RedeemsAsSuperAdmin(s.db, ch.identity, tenant);
      var (t, reply) := ServeRedeem(s, token, tenant);
      && (reply.NewSession? <==> tenant in ch.matched && if admin then email in s.db.superAdmins else account.Some?)
      && (reply.NewSession? ==>
            && |t.sessions| == |s.sessions| + 1 && t.sessions[|s.sessions|].email == email
            && t.sessions[|s.sessions|].role == if admin then "super_admin" else account.value.role)
  {
    var ch := s.challenges[token];
    var hint := HintRole(s.db, ch.identity, tenant);
    var u := UserAt(s.db, s.db.identities[ch.identity], tenant);
    var local := Resolve(s.db, ch.identity, tenant, hint);
    if !RedeemsAsSuperAdmin(s.db, ch.identity, tenant) {
      assert local.Some? <==> u.Some?;
      assert local.Some? ==> local.value.role == u.value.role;
    }
  }

  function Serve(verify: Verifier, s: State, r: Request): (State, Reply) {
    match r
    case Login(_, _, _, _) => ServeLogin(verify, s, r)
    case Redeem(token, tenant) => ServeRedeem(s, token, tenant)
    case Tick(seconds) => (s.(now := s.now + seconds), Quiet)
    case Edit(db) => (s.(db := db), Quiet)
  }

  predicate Run(verify: Verifier, s: State, requests: seq<Request>)
    decreases |requests|
  {
    requests == [] || (Allowed(s, requests[0]) && Run(verify, Serve(verify, s, requests[0]).0, requests[1..]))
  }

  function After(verify: Verifier, s: State, requests: seq<Request>): State
    requires Run(verify, s, requests)
    decreases |requests|
  {
    if requests == [] then s else After(verify, Serve(verify, s, requests[0]).0, requests[1..])
  }

  predicate Fresh(s: State) { s.challenges == map[] && s.attempts == [] && s.sessions == [] }

  // ------------------------------------------------------------------
  // Matching
  // ------------------------------------------------------------------

  lemma {:induction false} FetchAllMembers(db: Accounts, email: Email, order: seq<Tenant>)
    ensures forall c :: c in FetchAll(db, email, order) <==> exists t :: t in order && Fetch(db, email, t) == Some(c)
  {
    if order != [] {
      FetchAllMembers(db, email, order[1..]);
      assert order == [order[0]] + order[1..];
    }
  }

  lemma {:induction false} VerifiedMembers(verify: Verifier, password: string, cs: seq<Candidate>)
    ensures forall c :: c in Verified(verify, password, cs) <==> c in cs && verify(password, c.hash)
  {
    if cs != [] {
      VerifiedMembers(verify, password, cs[1..]);
      assert cs == [cs[0]] + cs[1..];
    }
  }

  /** The part of `order` a login looks at. */
  function Sample(order: seq<Tenant>): seq<Tenant> {
    if |order| <= MAX_CANDIDATES then order else order[..MAX_CANDIDATES]
  }

  lemma FetchKeepsTenant(db: Accounts, email: Email, tenant: Tenant)
    ensures Fetch(db, email, tenant).Some? ==> Fetch(db, email, tenant).value.tenant == tenant
  {
  }

  /** A school is matched exactly when it was looked at and the password opens it. */
  lemma MatchedTenants(verify: Verifier, db: Accounts, email: Email, password: string, order: seq<Tenant>, t: Tenant)
    ensures (exists c :: c in Matched(verify, db, email, password, order) && c.tenant == t)
       <==> t in Sample(order) && Opens(verify, db, email, password, t)
    ensures forall c :: c in Matched(verify, db, email, password, order) && c.tenant == t ==>
      Fetch(db, email, t) == Some(c)
  {
    var sample := Sample(order);
    FetchAllMembers(db, email, sample);
    VerifiedMembers(verify, password, FetchAll(db, email, sample));
    forall c | c in FetchAll(db, email, sample)
      ensures c.tenant in sample && Fetch(db, email, c.tenant) == Some(c)
    {
      var u :| u in sample && Fetch(db, email, u) == Some(c);
      FetchKeepsTenant(db, email, u);
    }
    if t in sample && Opens(verify, db, email, password, t) {
      FetchKeepsTenant(db, email, t);
      assert Fetch(db, email, t).value in Matched(verify, db, email, password, order);
    }
  }

  predicate InMatched(verify: Verifier, db: Accounts, email: Email, password: string, order: seq<Tenant>, t: Tenant) {
    exists c :: c in Matched(verify, db, email, password, order) && c.tenant == t
  }

  /** Logging in to a named school succeeds exactly when the unnamed login would have listed
      that school, as long as at most eight schools are candidates. */
  lemma NamedAgreesWithUnnamed(verify: Verifier, db: Accounts, email: Email, password: string, t: Tenant,
                               order: seq<Tenant>)
    requires t != "" && Enumerates(order, TenantIds(db, email)) && |order| <= MAX_CANDIDATES
    ensures Chosen(verify, db, Login(email, password, t, order)).Some? <==>
      InMatched(verify, db, email, password, order, t)
  {
    MatchedTenants(verify, db, email, password, order, t);
  }

  lemma {:induction false} EnumerationSize(order: seq<Tenant>, ids: set<Tenant>)
    requires Enumerates(order, ids)
    ensures |order| == |ids|
  {
    if order == [] {
      assert ids == {};
    } else {
      var last := order[|order| - 1];
      var init := order[..|order| - 1];
      assert order == init + [last];
      assert (set t | t in init) == ids - {last};
      EnumerationSize(init, ids - {last});
    }
  }

  lemma {:induction false} SomeEnumeration(ids: set<Tenant>) returns (order: seq<Tenant>)
    ensures Enumerates(order, ids)
  {
    if ids == {} {
      order := [];
    } else {
      var t :| t in ids;
      var rest := SomeEnumeration(ids - {t});
      order := rest + [t];
      assert (set u | u in order) == (set u | u in rest) + {t};
    }
  }

  /** The cut at eight is the only way the two logins disagree: for every iteration order
      they agree if and only if at most eight schools are candidates or the named login fails. */
  lemma CutIsTheOnlyDisagreement(verify: Verifier, db: Accounts, email: Email, password: string, t: Tenant)
    requires t != ""
    ensures var ids := TenantIds(db, email);
      var opens := t in ids && Opens(verify, db, email, password, t);
      (forall order :: Enumerates(order, ids) ==> (opens <==> InMatched(verify, db, email, password, order, t)))
      <==> (|ids| <= MAX_CANDIDATES || !opens)
  {
    var ids := TenantIds(db, email);
    var opens := t in ids && Opens(verify, db, email, password, t);
    forall order | Enumerates(order, ids) && (|ids| <= MAX_CANDIDATES || !opens)
      ensures opens <==> InMatched(verify, db, email, password, order, t)
    {
      EnumerationSize(order, ids);
      MatchedTenants(verify, db, email, password, order, t);
    }
    if opens && |ids| > MAX_CANDIDATES {
      var order := SomeOrderCutsIt(verify, db, email, password, t);
      assert Enumerates(order, ids);
    }
  }

  /** Among more than eight candidate schools, some order cuts off any given one. */
  lemma SomeOrderCutsIt(verify: Verifier, db: Accounts, email: Email, password: string, t: Tenant)
      returns (order: seq<Tenant>)
    requires t in TenantIds(db, email) && |TenantIds(db, email)| > MAX_CANDIDATES && t != ""
    ensures Enumerates(order, TenantIds(db, email)) && !InMatched(verify, db, email, password, order, t)
  {
    var ids := TenantIds(db, email);
    order := SomeOrderEndsWith(ids, t);
    EnumerationSize(order, ids);
    MatchedTenants(verify, db, email, password, order, t);
    assert Sample(order) == order[..MAX_CANDIDATES];
    assert forall i :: 0 <= i < MAX_CANDIDATES ==> order[i] == order[..|order| - 1][i];
  }

  lemma SomeOrderEndsWith(ids: set<Tenant>, t: Tenant) returns (order: seq<Tenant>)
    requires t in ids
    ensures Enumerates(order, ids) && order != [] && t !in order[..|order| - 1]
  {
    var rest := SomeEnumeration(ids - {t});
    order := rest + [t];
    assert (set u | u in order) == (set u | u in rest) + {t};
    assert order[..|order| - 1] == rest;
    assert t !in (set u | u in rest);
  }

  lemma {:induction false} LegacyScanIsLocal(db: Accounts, email: Email, tenants: seq<Tenant>)
    ensures var c := LegacyScan(db, email, tenants);
      c.Some? ==> c.value.tenant != "" && LocalCandidate(db, email, c.value.tenant) == c
  {
    if tenants != [] {
      LegacyScanIsLocal(db, email, tenants[1..]);
    }
  }

  lemma LinkedIsCandidate(db: Accounts, email: Email, t: Tenant)
    ensures IsLinked(db, email, t) ==> t in TenantIds(db, email)
  {
    if IsLinked(db, email, t) {
      assert (db.parents[email].id, t) in db.links;
      assert t in LinkedTenants(db, email);
    }
  }

  /** With no candidate school at all, the deprecated scan checks the very store that
      `_fetch_login_candidate` would have picked. */
  lemma LegacyAgreesWithFetch(db: Accounts, email: Email)
    requires TenantIds(db, email) == {}
    ensures var c := LegacyScan(db, email, db.tenants); c.Some? ==> Fetch(db, email, c.value.tenant) == c
  {
    LegacyScanIsLocal(db, email, db.tenants);
    var c := LegacyScan(db, email, db.tenants);
    if c.Some? {
      LinkedIsCandidate(db, email, c.value.tenant);
    }
  }

  // ------------------------------------------------------------------
  // Sessions rest on a password check
  // ------------------------------------------------------------------

  /** The submitted password verified against the store deciding `t`, among this account's stores. */
  predicate Proven(verify: Verifier, a: Attempt, t: Tenant) {
    && Opens(verify, a.db, a.email, a.password, t)
    && (t in TenantIds(a.db, a.email) || TenantIds(a.db, a.email) == {})
  }

  lemma ChosenIsProven(verify: Verifier, s: State, r: Request)
    requires r.Login? && Allowed(s, r) && Chosen(verify, s.db, r).Some?
    ensures var c := Chosen(verify, s.db, r).value;
      && Fetch(s.db, r.email, c.tenant) == Some(c)
      && Proven(verify, Attempt(r.email, r.password, s.db, s.now), c.tenant)
      && (r.named != "" ==> c.tenant == r.named)
  {
    var ids := TenantIds(s.db, r.email);
    if r.named != "" {
      FetchKeepsTenant(s.db, r.email, r.named);
    } else if ids == {} {
      LegacyAgreesWithFetch(s.db, r.email);
    } else {
      var c := Chosen(verify, s.db, r).value;
      assert c in Matched(verify, s.db, r.email, r.password, r.order);
      MatchedTenants(verify, s.db, r.email, r.password, r.order, c.tenant);
      SampleIsPart(r.order, c.tenant);
    }
  }

  lemma SampleIsPart(order: seq<Tenant>, t: Tenant)
    ensures t in Sample(order) ==> t in order
  {
  }

  ghost predicate ChallengesOk(verify: Verifier, s: State) {
    forall k :: k in s.challenges ==> ChallengeOk(verify, s, s.challenges[k])
  }

  ghost predicate ChallengeOk(verify: Verifier, s: State, ch: Challenge) {
    && ch.attempt < |s.attempts|
    && ch.identity < |s.db.identities| && s.db.identities[ch.identity] == s.attempts[ch.attempt].email
    && ch.expiresAt == s.attempts[ch.attempt].at + CHALLENGE_SECONDS
    && forall t :: t in ch.matched ==> Proven(verify, s.attempts[ch.attempt], t)
  }

  ghost predicate SessionOk(verify: Verifier, s: State, x: Session) {
    && x.attempt < |s.attempts|
    && x.email == s.attempts[x.attempt].email
    && Proven(verify, s.attempts[x.attempt], x.tenant)
    && match x.via
       case None => x.at == s.attempts[x.attempt].at
       case Some(token) =>
         && token in s.challenges && s.challenges[token].consumed
         && x.tenant in s.challenges[token].matched
         && s.challenges[token].attempt == x.attempt
         && x.at < s.challenges[token].expiresAt
  }

  ghost predicate SessionsOk(verify: Verifier, s: State) {
    && (forall x :: x in s.sessions ==> SessionOk(verify, s, x))
    && (forall i, j :: 0 <= i < j < |s.sessions| && s.sessions[i].via.Some? ==> s.sessions[i].via != s.sessions[j].via)
  }

  ghost predicate Inv(verify: Verifier, s: State) {
    && ChallengesOk(verify, s)
    && SessionsOk(verify, s)
    && (forall k :: k in s.challenges ==> k < s.nextId)
  }

  /** Completing a login never renames an identity. */
  lemma CompletedKeepsIdentities(db: Accounts, email: Email, c: Candidate, freshId: nat)
    ensures db.identities <= Completed(db, email, c, freshId).identities
  {
    var db1 := WithIdentity(db, email);
    assert db.identities <= db1.identities;
    match c.kind {
      case SuperAdmin =>
      case TenantUser => assert Upserted(db1, email, c.tenant, c.role).identities == db1.identities;
      case LinkedParent =>
        var db2 := WithLocalParent(db1, email, c.tenant, c.hash, freshId);
        assert db2.identities == db1.identities;
        assert Upserted(db2, email, c.tenant, "parent").identities == db2.identities;
    }
  }

  lemma AttemptKeepsInv(verify: Verifier, s: State, a: Attempt)
    requires Inv(verify, s)
    ensures Inv(verify, s.(attempts := s.attempts + [a]))
  {
    var t := s.(attempts := s.attempts + [a]);
    forall x | x in t.sessions ensures SessionOk(verify, t, x) {
      assert SessionOk(verify, s, x);
    }
  }

  lemma OpeningKeepsInv(verify: Verifier, s: State, email: Email, c: Candidate)
    requires Inv(verify, s) && |s.attempts| > 0
    requires var a := s.attempts[|s.attempts| - 1]; a.email == email && a.at == s.now && Proven(verify, a, c.tenant)
    ensures Inv(verify, EndLogin(s, email, Some(c), []).0)
  {
    var db := Completed(s.db, email, c, s.nextId);
    CompletedKeepsIdentities(s.db, email, c, s.nextId);
    EditKeepsInv(verify, s, db);
    var t := s.(db := db, nextId := s.nextId + 1);
    assert Inv(verify, t) by {
      assert Inv(verify, s.(db := db));
      assert forall x :: SessionOk(verify, s.(db := db), x) ==> SessionOk(verify, t, x);
    }
    AddSessionKeepsInv(verify, t, Session(c.tenant, email, SessionRole(c), s.now, |s.attempts| - 1, None));
  }

  lemma AskingKeepsInv(verify: Verifier, s: State, email: Email, choices: seq<Candidate>)
    requires Inv(verify, s) && |s.attempts| > 0 && choices != []
    requires var a := s.attempts[|s.attempts| - 1];
      a.email == email && a.at == s.now && forall t :: t in TenantsOf(choices) ==> Proven(verify, a, t)
    ensures Inv(verify, EndLogin(s, email, None, choices).0)
  {
    var t := EndLogin(s, email, None, choices).0;
    forall x | x in t.sessions ensures SessionOk(verify, t, x) {
      assert SessionOk(verify, s, x);
    }
  }

  lemma LoginKeepsInv(verify: Verifier, s: State, r: Request)
    requires Inv(verify, s) && r.Login? && Allowed(s, r)
    ensures Inv(verify, Serve(verify, s, r).0)
  {
    var a := Attempt(r.email, r.password, s.db, s.now);
    var s1 := s.(attempts := s.attempts + [a]);
    AttemptKeepsInv(verify, s, a);
    assert s1.attempts[|s1.attempts| - 1] == a;
    var chosen, choices := Chosen(verify, s.db, r), Choices(verify, s.db, r);
    if chosen.Some? {
      ChosenIsProven(verify, s, r);
      OpeningKeepsInv(verify, s1, r.email, chosen.value);
    } else if choices != [] {
      MatchedAreProven(verify, s, r);
      AskingKeepsInv(verify, s1, r.email, choices);
    }
  }

  lemma MatchedAreProven(verify: Verifier, s: State, r: Request)
    requires r.Login? && Allowed(s, r)
    ensures forall t :: t in TenantsOf(Matched(verify, s.db, r.email, r.password, r.order)) ==>
      Proven(verify, Attempt(r.email, r.password, s.db, s.now), t)
  {
    forall t | t in TenantsOf(Matched(verify, s.db, r.email, r.password, r.order))
      ensures Proven(verify, Attempt(r.email, r.password, s.db, s.now), t)
    {
      MatchedTenants(verify, s.db, r.email, r.password, r.order, t);
      SampleIsPart(r.order, t);
    }
  }

  /** A challenge that can still be redeemed has not yielded a session yet. */
  lemma RedeemableIsUnused(verify: Verifier, s: State, token: Token)
    requires Inv(verify, s) && Redeemable(s, token)
    ensures ChallengeOk(verify, s, s.challenges[token])
    ensures forall x :: x in s.sessions ==> x.via != Some(token)
  {
    forall x | x in s.sessions
      ensures x.via != Some(token)
    {
      assert SessionOk(verify, s, x);
    }
  }

  lemma SpendKeepsInv(verify: Verifier, s: State, token: Token)
    requires Inv(verify, s) && Redeemable(s, token)
    ensures Inv(verify, s.(challenges := s.challenges[token := s.challenges[token].(consumed := true)]))
  {
    RedeemableIsUnused(verify, s, token);
  }

  lemma AddSessionKeepsInv(verify: Verifier, s: State, x: Session)
    requires Inv(verify, s) && SessionOk(verify, s, x)
    requires forall y :: y in s.sessions && y.via.Some? ==> y.via != x.via
    ensures Inv(verify, s.(sessions := s.sessions + [x]))
  {
  }

  lemma RedeemKeepsInv(verify: Verifier, s: State, token: Token, tenant: Tenant)
    requires Inv(verify, s)
    ensures Inv(verify, ServeRedeem(s, token, tenant).0)
  {
    if Redeemable(s, token) {
      RedeemableIsUnused(verify, s, token);
      SpendKeepsInv(verify, s, token);
      var ch := s.challenges[token];
      var spent := s.(challenges := s.challenges[token := ch.(consumed := true)]);
      var local := Resolve(s.db, ch.identity, tenant, HintRole(s.db, ch.identity, tenant));
      if tenant in ch.matched && local.Some? {
        AddSessionKeepsInv(verify, spent,
          Session(tenant, s.db.identities[ch.identity], local.value.role, s.now, ch.attempt, Some(token)));
      }
    }
  }

  lemma EditKeepsInv(verify: Verifier, s: State, db: Accounts)
    requires Inv(verify, s) && s.db.identities <= db.identities
    ensures Inv(verify, s.(db := db))
  {
  }

  lemma ServeKeepsInv(verify: Verifier, s: State, r: Request)
    requires Inv(verify, s) && Allowed(s, r)
    ensures Inv(verify, Serve(verify, s, r).0)
  {
    match r {
      case Login(_, _, _, _) => LoginKeepsInv(verify, s, r);
      case Redeem(token, tenant) => RedeemKeepsInv(verify, s, token, tenant);
      case Tick(_) =>
      case Edit(db) => EditKeepsInv(verify, s, db);
    }
  }

  lemma {:induction false} RunKeepsInv(verify: Verifier, s: State, requests: seq<Request>)
    requires Inv(verify, s) && Run(verify, s, requests)
    ensures Inv(verify, After(verify, s, requests))
    decreases |requests|
  {
    if requests != [] {
      ServeKeepsInv(verify, s, requests[0]);
      RunKeepsInv(verify, Serve(verify, s, requests[0]).0, requests[1..]);
    }
  }

  /** Over every run, with the account stores edited at will in between: each session for a
      school rests on a login whose password verified against the store deciding that school,
      made by the session's own account at that moment or less than two minutes before; and
      each challenge yields at most one session, for a school it matched. */
  lemma SessionsAreEarned(verify: Verifier, s: State, requests: seq<Request>)
    requires Fresh(s) && Run(verify, s, requests)
    ensures var e := After(verify, s, requests);
      && (forall x :: x in e.sessions ==>
            && x.attempt < |e.attempts|
            && x.email == e.attempts[x.attempt].email
            && Proven(verify, e.attempts[x.attempt], x.tenant)
            && (x.via.None? ==> x.at == e.attempts[x.attempt].at)
            && (x.via.Some? ==> x.at < e.attempts[x.attempt].at + CHALLENGE_SECONDS
                                && x.via.value in e.challenges && x.tenant in e.challenges[x.via.value].matched))
      && (forall i, j :: 0 <= i < j < |e.sessions| && e.sessions[i].via.Some? ==>
        e.sessions[i].via != e.sessions[j].via)
  {
    RunKeepsInv(verify, s, requests);
    var e := After(verify, s, requests);
    forall x | x in e.sessions && x.via.Some?
      ensures x.at < e.attempts[x.attempt].at + CHALLENGE_SECONDS
    {
      assert SessionOk(verify, e, x);
      assert ChallengeOk(verify, e, e.challenges[x.via.value]);
    }
  }

  lemma SpentStays(verify: Verifier, s: State, r: Request, token: Token)
    requires token in s.challenges && s.challenges[token].consumed && forall k :: k in s.challenges ==> k < s.nextId
    ensures var t := Serve(verify, s, r).0; token in t.challenges && t.challenges[token].consumed
  {
  }

  /** Presenting a challenge in time spends it, whatever school was asked for and whether or not a
      session comes of it, and touches no other challenge. */
  lemma PresentingSpends(s: State, token: Token, tenant: Tenant)
    requires token in s.challenges && !s.challenges[token].consumed && s.now < s.challenges[token].expiresAt
    ensures ServeRedeem(s, token, tenant).0.challenges ==
      s.challenges[token := s.challenges[token].(consumed := true)]
  {
  }

  /** A spent challenge is refused ever after. */
  lemma {:induction false} ChallengeIsSpent(verify: Verifier, s: State, token: Token, later: seq<Request>, t: Tenant)
    requires Inv(verify, s) && token in s.challenges && s.challenges[token].consumed && Run(verify, s, later)
    ensures Serve(verify, After(verify, s, later), Redeem(token, t)).1 == Refused
    decreases |later|
  {
    if later != [] {
      ServeKeepsInv(verify, s, later[0]);
      SpentStays(verify, s, later[0], token);
      ChallengeIsSpent(verify, Serve(verify, s, later[0]).0, token, later[1..], t);
    }
  }

  /** Ambiguity is asked about, never guessed: an unnamed login opens a session at once only
      when exactly one looked-at school opens to the password, and otherwise offers exactly
      the schools that do. */
  lemma UnnamedLoginNeverGuesses(verify: Verifier, s: State, r: Request, t: Tenant)
    requires r.Login? && r.named == "" && Allowed(s, r) && TenantIds(s.db, r.email) != {}
    ensures var reply := Serve(verify, s, r).1;
      && (reply.NewSession? && reply.tenant == t ==>
            t in Sample(r.order) && Opens(verify, s.db, r.email, r.password, t)
            && forall u :: u in Sample(r.order) && Opens(verify, s.db, r.email, r.password, u) ==> u == t)
      && (reply.SelectTenant? ==>
            (t in reply.choices <==> t in Sample(r.order) && Opens(verify, s.db, r.email, r.password, t)))
      && (reply.Refused? ==> !(t in Sample(r.order) && Opens(verify, s.db, r.email, r.password, t)))
  {
    var m := Matched(verify, s.db, r.email, r.password, r.order);
    MatchedTenants(verify, s.db, r.email, r.password, r.order, t);
    forall u
      ensures (exists c :: c in m && c.tenant == u) <==>
        u in Sample(r.order) && Opens(verify, s.db, r.email, r.password, u)
    {
      MatchedTenants(verify, s.db, r.email, r.password, r.order, u);
    }
  }

  /** The one gap on the other side: an account with no membership row anywhere can log in only
      without naming its school.  A first such login writes the missing row, and from then on
      naming the school works. */
  lemma LegacyLoginHeals(verify: Verifier, s: State, email: Email, password: string, t: Tenant)
    requires TenantIds(s.db, email) == {} && t != ""
    requires Serve(verify, s, Login(email, password, "", [])).1 == NewSession(t)
    ensures Serve(verify, s, Login(email, password, t, [])).1 == Refused
    ensures var s' := Serve(verify, s, Login(email, password, "", [])).0;
      forall order :: Chosen(verify, s'.db, Login(email, password, t, order)).Some?
  {
    LegacyAgreesWithFetch(s.db, email);
    LegacyScanIsLocal(s.db, email, s.db.tenants);
    var c := LegacyScan(s.db, email, s.db.tenants).value;
    var s' := Serve(verify, s, Login(email, password, "", [])).0;
    assert s'.db == Upserted(WithIdentity(s.db, email), email, t, c.role);
    assert t in s'.db.memberships[email];
    assert t in MembershipTenants(s'.db, email);
    assert Fetch(s'.db, email, t) == Fetch(s.db, email, t);
  }

  // ------------------------------------------------------------------
  // What a login answers and writes, table by table
  // ------------------------------------------------------------------

  ghost predicate Linked(db: Accounts, email: Email, t: Tenant) {
    email in db.parents && (db.parents[email].id, t) in db.links
  }

  /** Naming a school: a parent linked to it is let in by the parent's password alone, as a parent;
      anybody else needs a membership there and a row whose own password this is, and gets that
      row's role. Everything else is refused and changes nothing but the record of attempts. */
  lemma NamedLogin(verify: Verifier, s: State, r: Request)
    requires r.Login? && r.named != ""
    ensures var (s', reply) := Serve(verify, s, r);
      var db, e, t := s.db, r.email, r.named;
      && (Linked(db, e, t) ==> (reply == NewSession(t) <==> verify(r.password, db.parents[e].hash)))
      && (!Linked(db, e, t) ==>
            (reply == NewSession(t) <==>
               e in db.memberships && t in db.memberships[e] && LocalOpens(verify, db, e, r.password, t)))
      && (reply != NewSession(t) ==>
            reply == Refused && s'.db == db && s'.sessions == s.sessions && s'.challenges == s.challenges)
      && (reply == NewSession(t) ==>
            s'.sessions == s.sessions + [
              Session(t, e, if Linked(db, e, t) then "parent" else db.users[t][e].role, s.now, |s.attempts|, None)])
  {
    LinkedMeansListed(s.db, r.email, r.named);
    assert r.named in MembershipTenants(s.db, r.email) <==>
      r.email in s.db.memberships && r.named in s.db.memberships[r.email];
  }

  lemma LinkedMeansListed(db: Accounts, email: Email, t: Tenant)
    ensures Linked(db, email, t) <==> t in LinkedTenants(db, email)
  {
    if t in LinkedTenants(db, email) {
      var l :| l in db.links && l.0 == db.parents[email].id && l.1 == t;
      assert l == (db.parents[email].id, t);
    }
    if Linked(db, email, t) {
      assert (db.parents[email].id, t) in db.links;
    }
  }

  /** Whatever way a login opens a session, the password is the one of the store that decides the
      school, super admin before parent before the school's own row, and the role is that
      store's. */
  lemma SessionIsOfItsStore(verify: Verifier, s: State, r: Request)
    requires r.Login? && Allowed(s, r) && Serve(verify, s, r).1.NewSession?
    ensures var (s', reply) := Serve(verify, s, r);
      var db, e, t := s.db, r.email, reply.tenant;
      && |s'.sessions| == |s.sessions| + 1 && s'.sessions[..|s.sessions|] == s.sessions
      && var x := s'.sessions[|s.sessions|];
         && x.tenant == t && x.email == e && x.at == s.now && x.via.None?
         && if t == "" && e in db.superAdmins then
              verify(r.password, db.superAdmins[e].hash) && x.role == "super_admin"
            else if Linked(db, e, t) then verify(r.password, db.parents[e].hash) && x.role == "parent"
            else LocalOpens(verify, db, e, r.password, t) && x.role == db.users[t][e].role
  {
    ChosenIsProven(verify, s, r);
    var c := Chosen(verify, s.db, r).value;
    FetchDecides(verify, s.db, r.email, r.password, c.tenant);
  }

  /** An account without any membership, and a login that names no school: the first school in the
      list with a usable row decides, and no other password is looked at. */
  lemma LegacyLogin(verify: Verifier, s: State, r: Request, t: Tenant)
    requires r.Login? && r.named == "" && TenantIds(s.db, r.email) == {}
    ensures Serve(verify, s, r).1 == NewSession(t) <==>
      IsFirstUsable(s.db, r.email, s.db.tenants, t) && LocalOpens(verify, s.db, r.email, r.password, t)
  {
    var i := LegacyScanIsFirst(s.db, r.email, s.db.tenants);
    OnlyTheFirst(s.db, r.email, s.db.tenants, i, t);
  }

  predicate Usable(db: Accounts, email: Email, t: Tenant) {
    t != "" && t in db.users && email in db.users[t] && db.users[t][email].hash != ""
  }

  predicate FirstUsableAt(db: Accounts, email: Email, tenants: seq<Tenant>, i: int) {
    0 <= i < |tenants| && Usable(db, email, tenants[i]) && forall j :: 0 <= j < i ==> !Usable(db, email, tenants[j])
  }

  ghost predicate IsFirstUsable(db: Accounts, email: Email, tenants: seq<Tenant>, t: Tenant) {
    exists i :: FirstUsableAt(db, email, tenants, i) && tenants[i] == t
  }

  lemma OnlyTheFirst(db: Accounts, email: Email, tenants: seq<Tenant>, i: nat, t: Tenant)
    requires i <= |tenants| && forall j :: 0 <= j < i ==> !Usable(db, email, tenants[j])
    requires i < |tenants| ==> Usable(db, email, tenants[i])
    ensures IsFirstUsable(db, email, tenants, t) <==> i < |tenants| && tenants[i] == t
  {
    assert i < |tenants| ==> FirstUsableAt(db, email, tenants, i);
  }

  lemma {:induction false} LegacyScanIsFirst(db: Accounts, email: Email, tenants: seq<Tenant>) returns (i: nat)
    ensures i <= |tenants| && forall j :: 0 <= j < i ==> !Usable(db, email, tenants[j])
    ensures i < |tenants| ==> Usable(db, email, tenants[i])
    ensures LegacyScan(db, email, tenants) == if i < |tenants| then LocalCandidate(db, email, tenants[i]) else None
  {
    i := 0;
    if tenants != [] && !Usable(db, email, tenants[0]) {
      var k := LegacyScanIsFirst(db, email, tenants[1..]);
      i := k + 1;
      assert forall j :: 1 <= j < |tenants| ==> tenants[j] == tenants[1..][j - 1];
    }
  }

  /** What a session leaves in the stores: the address has an identity; outside the super-admin
      store the school's membership carries the session's role, and a linked parent without a
      local account gets one with the parent's password. Nothing else is written. */
  lemma LoginWrites(verify: Verifier, s: State, r: Request)
    requires r.Login? && Allowed(s, r) && Serve(verify, s, r).1.NewSession?
    ensures var (s', reply) := Serve(verify, s, r);
      var db, db', e, t := s.db, s'.db, r.email, reply.tenant;
      var role := s'.sessions[|s'.sessions| - 1].role;
      && db'.identities == (if e in db.identities then db.identities else db.identities + [e])
      && db'.parents == db.parents && db'.links == db.links && db'.superAdmins == db.superAdmins
      && db'.tenants == db.tenants && s'.challenges == s.challenges
      && (if t == "" && e in db.superAdmins then db'.memberships == db.memberships && db'.users == db.users
          else
            && db'.memberships == db.memberships[
                 e := (if e in db.memberships then db.memberships[e] else map[])[t := role]]
            && db'.users == if Linked(db, e, t) then UsersWithParent(db, e, t, s.nextId) else db.users)
  {
    ChosenIsProven(verify, s, r);
    CompletedWrites(s.db, r.email, Chosen(verify, s.db, r).value, s.nextId);
  }

  lemma CompletedWrites(db: Accounts, e: Email, c: Candidate, freshId: nat)
    requires Fetch(db, e, c.tenant) == Some(c)
    ensures var db' := Completed(db, e, c, freshId);
      && db'.identities == (if e in db.identities then db.identities else db.identities + [e])
      && db'.parents == db.parents && db'.links == db.links && db'.superAdmins == db.superAdmins
      && db'.tenants == db.tenants
      && db'.memberships == (if c.kind.SuperAdmin? then db.memberships
           else
             var held := if e in db.memberships then db.memberships[e] else map[];
             db.memberships[e := held[c.tenant := SessionRole(c)]])
      && db'.users == (if c.kind.LinkedParent? then UsersWithParent(db, e, c.tenant, freshId) else db.users)
  {
    var db1 := WithIdentity(db, e);
    assert db1 == db.(identities := if e in db.identities then db.identities else db.identities + [e]);
    match c.kind {
      case SuperAdmin =>
      case TenantUser => UpsertWrites(db1, e, c.tenant, c.role);
      case LinkedParent =>
        var db2 := WithLocalParent(db1, e, c.tenant, c.hash, freshId);
        assert db2 == db1.(users := UsersWithParent(db, e, c.tenant, freshId));
        UpsertWrites(db2, e, c.tenant, "parent");
    }
  }

  lemma UpsertWrites(db: Accounts, e: Email, t: Tenant, role: string)
    ensures Upserted(db, e, t, role) == db.(memberships :=
      db.memberships[e := (if e in db.memberships then db.memberships[e] else map[])[t := role]])
  {
  }

  /** A linked parent's local account is made on the first login. */
  function UsersWithParent(db: Accounts, e: Email, t: Tenant, freshId: nat): map<Tenant, map<Email, User>>
    requires e in db.parents
  {
    var local := if t in db.users then db.users[t] else map[];
    if e in local then db.users else db.users[t := local[e := User(freshId, db.parents[e].hash, "parent", [], [])]]
  }

  /** The challenge behind a request to choose: for this address, for two minutes, unused, listing
      the very schools that are shown; nobody is logged in yet. */
  lemma ChallengeIsTheOffer(verify: Verifier, s: State, r: Request)
    requires r.Login? && Serve(verify, s, r).1.SelectTenant?
    ensures var (s', reply) := Serve(verify, s, r);
      && s'.sessions == s.sessions && r.named == "" && |reply.choices| > 1
      && reply.token in s'.challenges && s'.challenges - {reply.token} == s.challenges - {reply.token}
      && var ch := s'.challenges[reply.token];
         && ch.matched == reply.choices && ch.expiresAt == s.now + 120 && !ch.consumed
         && ch.identity < |s'.db.identities| && s'.db.identities[ch.identity] == r.email
  {
  }
}

/** The service and repository methods, branch by branch, over tables updated in place. */
module LoginService {
  import opened Wrappers
  import opened LoginModel

  lemma {:induction false} VerifiedAppend(verify: Verifier, password: string, cs: seq<Candidate>, c: Candidate)
    ensures Verified(verify, password, cs + [c]) ==
            Verified(verify, password, cs) + (if verify(password, c.hash) then [c] else [])
  {
    if cs == [] {
    } else {
      assert (cs + [c])[1..] == cs[1..] + [c];
      VerifiedAppend(verify, password, cs[1..], c);
      var head := if verify(password, cs[0].hash) then [cs[0]] else [];
      var last := if verify(password, c.hash) then [c] else [];
      assert head + (Verified(verify, password, cs[1..]) + last) == (head + Verified(verify, password, cs[1..])) + last;
    }
  }

  lemma {:induction false} FetchAllAppend(db: Accounts, email: Email, order: seq<Tenant>, t: Tenant)
    ensures FetchAll(db, email, order + [t]) ==
            FetchAll(db, email, order) + (if Fetch(db, email, t).Some? then [Fetch(db, email, t).value] else [])
  {
    if order == [] {
    } else {
      assert (order + [t])[1..] == order[1..] + [t];
      FetchAllAppend(db, email, order[1..], t);
    }
  }

  /** `_verify_candidates_padded`: at least PADDING_FLOOR comparisons are made whatever the
      number of candidates, and the padding comparisons never add or drop a candidate. */
  method VerifyCandidatesPadded(verify: Verifier, candidates: seq<Candidate>, password: string, dummyHash: Hash)
    returns (matched: seq<Candidate>, comparisons: nat)
    ensures matched == Verified(verify, password, candidates)
    ensures comparisons == if |candidates| < PADDING_FLOOR then PADDING_FLOOR else |candidates|
  {
    var results: seq<bool> := [];
    for i := 0 to |candidates|
      invariant |results| == i
      invariant forall j :: 0 <= j < i ==> results[j] == verify(password, candidates[j].hash)
    {
      results := results + [verify(password, candidates[i].hash)];
    }
    var pads := if |candidates| < PADDING_FLOOR then PADDING_FLOOR - |candidates| else 0;
    for i := 0 to pads
      invariant |results| == |candidates| + i
      invariant forall j :: 0 <= j < |candidates| ==> results[j] == verify(password, candidates[j].hash)
    {
      results := results + [verify(password, dummyHash)];
    }
    comparisons := |results|;
    matched := [];
    for i := 0 to |candidates|
      invariant matched == Verified(verify, password, candidates[..i])
    {
      assert candidates[..i + 1] == candidates[..i] + [candidates[i]];
      VerifiedAppend(verify, password, candidates[..i], candidates[i]);
      if results[i] {
        matched := matched + [candidates[i]];
      }
    }
    assert candidates[..|candidates|] == candidates;
  }

  class AuthService {
    var db: Accounts
    var now: Time
    var challenges: map<Token, Challenge>
    var nextId: nat
    var attempts: seq<Attempt>   // history, read by no branch
    var sessions: seq<Session>   // history, read by no branch

    ghost function Abs(): State
      reads this
    {
      State(db, now, challenges, nextId, attempts, sessions)
    }

    /** `_enumerate_login_tenants`. */
    method EnumerateLoginTenants(email: Email) returns (tenantIds: set<Tenant>)
      ensures tenantIds == TenantIds(db, email)
    {
      tenantIds := if email in db.memberships then set t | t in db.memberships[email] && t != "" else {};
      if email in db.parents {
        tenantIds := tenantIds + set l | l in db.links && l.0 == db.parents[email].id :: l.1;
      }
      if email in db.superAdmins {
        tenantIds := tenantIds + {""};
      }
    }

    /** `_legacy_scan_for_candidate`. */
    method LegacyScanForCandidate(email: Email) returns (c: Option<Candidate>)
      ensures c == LegacyScan(db, email, db.tenants)
    {
      var i := 0;
      while i < |db.tenants|
        invariant 0 <= i <= |db.tenants|
        invariant LegacyScan(db, email, db.tenants) == LegacyScan(db, email, db.tenants[i..])
      {
        var tid := db.tenants[i];
        if tid != "" {
          var found := LocalCandidate(db, email, tid);
          if found.Some? {
            return found;
          }
        }
        i := i + 1;
      }
      c := None;
    }

    /** The comprehension over `list(tenant_ids)[:8]`. */
    method GatherCandidates(email: Email, order: seq<Tenant>) returns (candidates: seq<Candidate>)
      ensures candidates == FetchAll(db, email, Sample(order))
    {
      var sample := if |order| <= MAX_CANDIDATES then order else order[..MAX_CANDIDATES];
      candidates := [];
      for i := 0 to |sample|
        invariant candidates == FetchAll(db, email, sample[..i])
      {
        assert sample[..i + 1] == sample[..i] + [sample[i]];
        FetchAllAppend(db, email, sample[..i], sample[i]);
        var c := Fetch(db, email, sample[i]);
        if c.Some? {
          candidates := candidates + [c.value];
        }
      }
      assert sample[..|sample|] == sample;
    }

    /** `_complete_login`: a parent is re-checked against its link, never given one. */
    method CompleteLogin(email: Email, c: Candidate) returns (ok: bool)
      modifies this`db, this`nextId
      ensures ok <==> (c.kind.LinkedParent? ==> IsLinked(old(db), email, c.tenant))
      ensures ok ==> db == Completed(old(db), email, c, old(nextId)) && nextId == old(nextId) + 1
    {
      db := WithIdentity(db, email);
      match c.kind {
        case SuperAdmin =>
        case LinkedParent =>
          if !IsLinked(db, email, c.tenant) {
            return false;
          }
          if UserAt(db, email, c.tenant).None? {
            db := WithLocalParent(db, email, c.tenant, c.hash, nextId);
          }
          db := Upserted(db, email, c.tenant, "parent");
        case TenantUser =>
          db := Upserted(db, email, c.tenant, c.role);
      }
      nextId := nextId + 1;
      ok := true;
    }

    /** The checks of `login_user`: the one candidate to log in as, or the several to choose from. */
    method Decide(verify: Verifier, email: Email, password: string, named: Tenant, order: seq<Tenant>)
      returns (chosen: Option<Candidate>, choices: seq<Candidate>)
      ensures chosen == Chosen(verify, db, Login(email, password, named, order))
      ensures choices == Choices(verify, db, Login(email, password, named, order))
    {
      chosen, choices := None, [];
      var tenantIds := EnumerateLoginTenants(email);
      if named != "" {
        if named in tenantIds {
          chosen := Fetch(db, email, named);
          if chosen.Some? && !verify(password, chosen.value.hash) {
            chosen := None;
          }
        }
      } else if tenantIds == {} {
        chosen := LegacyScanForCandidate(email);
        if chosen.Some? && !verify(password, chosen.value.hash) {
          chosen := None;
        }
      } else {
        var candidates := GatherCandidates(email, order);
        var matched, _ := VerifyCandidatesPadded(verify, candidates, password, "padding");
        if |matched| == 1 {
          chosen := Some(matched[0]);
        } else if |matched| > 1 {
          choices := matched;
        }
      }
    }

    /** The session of a candidate that was fetched for its school. */
    method OpenSession(email: Email, c: Candidate) returns (reply: Reply)
      requires |attempts| > 0 && Fetch(db, email, c.tenant) == Some(c)
      modifies this`db, this`nextId, this`sessions
      ensures db == Completed(old(db), email, c, old(nextId)) && nextId == old(nextId) + 1
      ensures sessions == old(sessions) + [Session(c.tenant, email, SessionRole(c), now, |attempts| - 1, None)]
      ensures reply == NewSession(c.tenant)
    {
      var ok := CompleteLogin(email, c);
      assert ok;
      sessions := sessions + [Session(c.tenant, email, SessionRole(c), now, |attempts| - 1, None)];
      reply := NewSession(c.tenant);
    }

    /** `login_user`.  `order` is the iteration order of the tenant-id set. */
    method LoginUser(verify: Verifier, email: Email, password: string, named: Tenant, order: seq<Tenant>)
      returns (reply: Reply)
      requires Enumerates(order, TenantIds(db, email))
      modifies this
      ensures Abs() == ServeLogin(verify, old(Abs()), Login(email, password, named, order)).0
      ensures reply == ServeLogin(verify, old(Abs()), Login(email, password, named, order)).1
    {
      ghost var before, request := Abs(), Login(email, password, named, order);
      var chosen, choices := Decide(verify, email, password, named, order);
      if chosen.Some? {
        ChosenIsProven(verify, before, request);
      }
      attempts := attempts + [Attempt(email, password, db, now)];
      reply := Conclude(email, chosen, choices);
    }

    /** The three ways a login ends. */
    method Conclude(email: Email, chosen: Option<Candidate>, choices: seq<Candidate>) returns (reply: Reply)
      requires |attempts| > 0 && (chosen.Some? ==> Fetch(db, email, chosen.value.tenant) == chosen)
      modifies this`db, this`nextId, this`sessions, this`challenges
      ensures (Abs(), reply) == EndLogin(old(Abs()), email, chosen, choices)
    {
      if chosen.Some? {
        reply := OpenSession(email, chosen.value);
      } else if choices != [] {
        reply := IssueSelectionChallenge(email, TenantsOf(choices));
      } else {
        reply := Refused;
      }
    }

    /** `_issue_login_selection_challenge`. */
    method IssueSelectionChallenge(email: Email, tenants: seq<Tenant>) returns (reply: Reply)
      requires |attempts| > 0
      modifies this`db, this`challenges, this`nextId
      ensures db == WithIdentity(old(db), email)
      ensures challenges == old(challenges)[old(nextId) :=
        Challenge(IndexOf(db.identities, email), tenants, now + CHALLENGE_SECONDS, false, |attempts| - 1)]
      ensures nextId == old(nextId) + 1 && reply == SelectTenant(old(nextId), tenants)
    {
      db := WithIdentity(db, email);
      var token := nextId;
      challenges := challenges[token :=
        Challenge(IndexOf(db.identities, email), tenants, now + CHALLENGE_SECONDS, false, |attempts| - 1)];
      nextId := nextId + 1;
      reply := SelectTenant(token, tenants);
    }

    /** The `UPDATE ... WHERE consumed_at IS NULL AND expires_at > now RETURNING`. */
    method RedeemSelectionChallenge(token: Token) returns (row: Option<Challenge>)
      modifies this`challenges
      ensures row.Some? <==> Redeemable(old(Abs()), token)
      ensures row.Some? ==> row.value == old(challenges)[token]
                            && challenges == old(challenges)[token := row.value.(consumed := true)]
      ensures row.None? ==> challenges == old(challenges)
    {
      if token in challenges && !challenges[token].consumed && now < challenges[token].expiresAt {
        row := Some(challenges[token]);
        challenges := challenges[token := challenges[token].(consumed := true)];
      } else {
        row := None;
      }
    }

    /** `login_redeem`. */
    method LoginRedeem(token: Token, tenant: Tenant) returns (reply: Reply)
      modifies this
      ensures Abs() == ServeRedeem(old(Abs()), token, tenant).0
      ensures reply == ServeRedeem(old(Abs()), token, tenant).1
    {
      var row := RedeemSelectionChallenge(token);
      if row.None? || tenant !in row.value.matched {
        return Refused;
      }
      var local := Resolve(db, row.value.identity, tenant, HintRole(db, row.value.identity, tenant));
      if local.None? {
        return Refused;
      }
      sessions := sessions + [Session(tenant, db.identities[row.value.identity], local.value.role, now,
                                      row.value.attempt, Some(token))];
      reply := NewSession(tenant);
    }
  }
}
