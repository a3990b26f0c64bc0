/** Which school a request acts in, and with which roles: the resolution part of
    `get_current_user` in `app/core/dependencies.py`. */
module ResolutionModel {
  import opened Wrappers

  type Tenant = string
  type Role = string
  type Catalog = map<Role, set<Role>>    // COMPOSITE_ROLE_PERMISSIONS

  datatype Membership = Membership(tenant: Tenant, role: Role)

  /** A row of one school's `users` table. */
  datatype UserRow = UserRow(role: Role, roles: seq<Role>, permissions: seq<Role>)

  /** The verified claims of a token, with claim shapes already normalised: an absent claim is
      the empty string or the empty list, and a group is its path components. */
  datatype Token = Token(
    keycloak: bool, email: string, role: Role, roles: seq<Role>,
    tenant: Tenant, aliases: seq<Tenant>, attribute: Tenant, groups: seq<seq<string>>, realm: Option<string>)

  /** What the stores hold about this caller. */
  datatype Stores = Stores(
    isSuperAdmin: bool,
    memberships: seq<Membership>,          // the cached or loaded membership list
    mapping: Option<Membership>,           // get_tenant_for_email
    invitation: Option<Membership>,
    tenants: seq<Tenant>,                  // get_all_tenants
    users: map<Tenant, UserRow>,           // the caller's row in each school
    status: map<Tenant, string>)           // user_tenant_map.status

  datatype Refusal = NotAMember | SelectTenant(choices: seq<Membership>) | NoSchool | AccessWithdrawn

  datatype Outcome = User(tenant: Option<Tenant>, role: Role, roles: set<Role>) | Refuse(why: Refusal)

  // ------------------------------------------------------------------
  // Roles carried by the token
  // ------------------------------------------------------------------

  const ROLE_NAMES: set<Role> :=
    {"super_admin", "school_admin", "admin", "administrator", "manager", "teacher",
     "event_teacher", "parent", "student", "pending"}

  const EXTRA_PERMISSIONS: set<Role> :=
    {"system:write", "system:read", "tenant:manage", "tenant:view",
     "academic:direct", "academic:view", "content:create", "content:publish"}

  const UNASSIGNED: set<Role> := {"pending", "none", "unassigned"}

  const RESERVED: set<Tenant> := {"sams", "schooldesk", "master"}

  predicate Valid(catalog: Catalog, r: Role) {
    r in ROLE_NAMES || r in EXTRA_PERMISSIONS || (':' in r && exists c :: c in catalog && r in catalog[c])
  }

  function LowerChar(c: char): char { if 'A' <= c <= 'Z' then (c as int + 32) as char else c }

  function Lower(s: string): string { seq(|s|, i requires 0 <= i < |s| => LowerChar(s[i])) }

  function Strip(s: string): string {
    if s == "" then ""
    else if s[0] == ' ' then Strip(s[1..])
    else if s[|s| - 1] == ' ' then Strip(s[..|s| - 1])
    else s
  }

  function Normal(s: string): string { Lower(Strip(s)) }

  /** The one loop that unfolds composite roles into their permissions. */
  function Expand(catalog: Catalog, roles: set<Role>): set<Role> {
    roles + set r, p | r in roles && r in catalog && p in catalog[r] :: p
  }

  function TokenRole(catalog: Catalog, t: Token): Role {
    var clean := Normal(t.role);
    if t.keycloak || t.role == "" then "pending"
    else if clean in {"admin", "administrator", "school_admin"} then "school_admin"
    else if Valid(catalog, clean) then clean
    else "pending"
  }

  function TokenRoles(catalog: Catalog, t: Token): set<Role> {
    var role := TokenRole(catalog, t);
    var listed := if t.keycloak then {} else set r | r in t.roles && Valid(catalog, r);
    var base := listed + {role};
    Expand(catalog, if "school_admin" in base then base + {"admin"}
                    else if "admin" in base then base + {"school_admin"} else base)
  }

  /** The roles a request is working with; Python reassigns both as it goes. */
  datatype Roles = Roles(role: Role, extracted: set<Role>)

  function StartRoles(catalog: Catalog, t: Token, s: Stores): Roles {
    var role, extracted := TokenRole(catalog, t), TokenRoles(catalog, t);
    if role == "pending" && t.email != "" && s.isSuperAdmin then
      Roles("super_admin", (extracted - {"pending"}) + {"super_admin"}
                           + if "super_admin" in catalog then catalog["super_admin"] else {})
    else Roles(role, extracted)
  }

  predicate IsSuper(r: Roles) { r.role == "super_admin" || "super_admin" in r.extracted }

  // ------------------------------------------------------------------
  // Tenant from the token and the stores
  // ------------------------------------------------------------------

  predicate Ambiguous(t: Token) { |t.aliases| > 1 }

  function FirstTenantPart(parts: seq<string>): Tenant {
    if parts == [] then ""
    else if |parts[0]| >= 7 && parts[0][..7] == "tenant_" then parts[0]
    else FirstTenantPart(parts[1..])
  }

  function FromGroups(groups: seq<seq<string>>): Tenant {
    if groups == [] then ""
    else if FirstTenantPart(groups[0]) != "" then FirstTenantPart(groups[0])
    else FromGroups(groups[1..])
  }

  function OrElse(first: Tenant, second: Tenant): Tenant { if first != "" then first else second }

  /** Claim, single organization alias, user attribute, group path, realm: first hit wins, and
      nothing past the claim is consulted for a caller with several aliases. */
  function TokenTenant(t: Token): Tenant {
    if t.tenant != "" then t.tenant
    else if Ambiguous(t) then ""
    else OrElse(if |t.aliases| == 1 then t.aliases[0] else "",
         OrElse(t.attribute,
         OrElse(FromGroups(t.groups),
                if t.realm.Some? && Lower(t.realm.value) !in RESERVED then t.realm.value else "")))
  }

  predicate Unusable(tenant: Tenant) { tenant == "" || Lower(tenant) in RESERVED }

  predicate Unestablished(r: Roles) { r.role in {"student", "pending"} }

  function Adopt(catalog: Catalog, r: Roles, role: Role): Roles {
    Roles(role, r.extracted + {role} + if role in catalog then catalog[role] else {})
  }

  datatype Place = Place(tenant: Tenant, roles: Roles)

  /** `get_tenant_for_email`, then the invitation tables. */
  function LastResort(catalog: Catalog, t: Token, s: Stores, p: Place): Place {
    if Ambiguous(t) || t.email == "" || !(Unusable(p.tenant) || Unestablished(p.roles)) then p
    else
      var p1 :=
        if s.mapping.None? then p
        else
          var stored := s.mapping.value.role;
          Place(s.mapping.value.tenant,
                if Unestablished(p.roles) && stored != "" && Valid(catalog, stored)
                then Adopt(catalog, p.roles, stored) else p.roles);
      if (s.mapping.None? || Unestablished(p1.roles)) && s.invitation.Some?
         && s.invitation.value.tenant != "" && s.invitation.value.role != ""
      then Place(s.invitation.value.tenant, Adopt(catalog, p1.roles, s.invitation.value.role))
      else p1
  }

  /** `next(m for m in memberships if ... == req_tenant_norm)`. */
  function FindMembership(ms: seq<Membership>, wanted: string): Option<Membership> {
    if ms == [] then None
    else if Normal(ms[0].tenant) == wanted then Some(ms[0])
    else FindMembership(ms[1..], wanted)
  }

  function Memberships(t: Token, s: Stores, super: bool): seq<Membership> {
    if super || t.email == "" then [] else s.memberships
  }

  /** The scan stops at the first school with a row for the caller. */
  function Scan(tenants: seq<Tenant>, users: map<Tenant, UserRow>): Option<Tenant> {
    if tenants == [] then None
    else if tenants[0] != "" && tenants[0] in users then Some(tenants[0])
    else Scan(tenants[1..], users)
  }

  function Scanned(t: Token, s: Stores, super: bool, p: Place): Place {
    if Unusable(p.tenant) && t.email != "" && !super && !Ambiguous(t) && Memberships(t, s, super) == [] then
      var found := Scan(s.tenants, s.users);
      if found.None? then p
      else if found.value in s.users && s.users[found.value].role != "" && s.users[found.value].role !in UNASSIGNED
      then Place(found.value, Roles(s.users[found.value].role, p.roles.extracted + {s.users[found.value].role}))
      else Place(found.value, p.roles)
    else p
  }

  /** Where a request stands once its school is settled. */
  datatype Settled = At(tenant: Option<Tenant>, roles: Roles, switched: bool) | Stop(why: Refusal)

  function Settle(catalog: Catalog, t: Token, s: Stores, header: string): Settled {
    var start := StartRoles(catalog, t, s);
    var super := IsSuper(start);
    var ms := Memberships(t, s, super);
    var p := LastResort(catalog, t, s, Place(TokenTenant(t), start));
    var wanted := Normal(header);
    var hit := FindMembership(ms, wanted);
    if Strip(header) != "" && !super && hit.None? then Stop(NotAMember)
    else
      var switched := Strip(header) != "" && !super && hit.value.tenant != p.tenant;
      var p1 := if Strip(header) == "" then p
                else if super then Place(wanted, p.roles)
                else Place(hit.value.tenant, p.roles);
      var p2 := Scanned(t, s, super, p1);
      if !Unusable(p2.tenant) then At(Some(p2.tenant), p2.roles, switched)
      else if super then At(None, p2.roles, switched)
      else if |ms| > 1 then Stop(SelectTenant(ms))
      else Stop(NoSchool)
  }

  // ------------------------------------------------------------------
  // Roles from the school's own row
  // ------------------------------------------------------------------

  function ApplyUserRow(catalog: Catalog, row: UserRow, switched: bool, super: bool, r: Roles): Roles {
    var base := if switched then {} else r.extracted;
    if row.role in UNASSIGNED && !super then Roles(row.role, {"pending"})
    else
      var known := row.role != "" && Valid(catalog, row.role);
      var role := if known && (switched || Unestablished(r)) then row.role else r.role;
      var listed := base + (if known then {row.role} else {})
                    + set x | x in row.roles && x != "" && Valid(catalog, x) && x !in UNASSIGNED;
      var kept := if "student" in listed && row.role != "student" && "student" !in row.roles
                  then listed - {"student"} else listed;
      Roles(role, kept + set x | x in row.permissions && x != "")
  }

  function Resolve(catalog: Catalog, t: Token, s: Stores, header: string): Outcome {
    var super := IsSuper(StartRoles(catalog, t, s));
    match Settle(catalog, t, s, header)
    case Stop(why) => Refuse(why)
    case At(tenant, roles, switched) =>
      if t.email != "" && tenant.Some? && tenant.value !in s.users && switched then Refuse(NotAMember)
      else
        var local := if t.email != "" && tenant.Some? && tenant.value in s.users
                     then ApplyUserRow(catalog, s.users[tenant.value], switched, super, roles) else roles;
        if !super && tenant.Some? && t.email != "" && tenant.value in s.status
           && s.status[tenant.value] in {"suspended", "revoked"}
        then Refuse(AccessWithdrawn)
        else User(tenant, local.role, Expand(catalog, local.extracted))
  }

  // ------------------------------------------------------------------
  // What is guaranteed
  // ------------------------------------------------------------------

  predicate HasMembership(ms: seq<Membership>, tenant: Tenant) { exists m :: m in ms && m.tenant == tenant }

  lemma {:induction false} FindIsExact(ms: seq<Membership>, wanted: string)
    ensures var hit := FindMembership(ms, wanted);
      && (hit.Some? ==> hit.value in ms && Normal(hit.value.tenant) == wanted)
      && (hit.None? ==> forall m :: m in ms ==> Normal(m.tenant) != wanted)
  {
    if ms != [] {
      FindIsExact(ms[1..], wanted);
    }
  }

  predicate Super(catalog: Catalog, t: Token, s: Stores) { IsSuper(StartRoles(catalog, t, s)) }

  /** The status the refusals are answered with. */
  function Code(why: Refusal): nat {
    match why
    case NotAMember => 403
    case AccessWithdrawn => 403
    case SelectTenant(_) => 400
    case NoSchool => 400
  }

  /** The school the request would act in without naming one, before the scan. */
  function Home(catalog: Catalog, t: Token, s: Stores): Tenant {
    LastResort(catalog, t, s, Place(TokenTenant(t), StartRoles(catalog, t, s))).tenant
  }

  predicate Withdrawn(s: Stores, tenant: Tenant) { tenant in s.status && s.status[tenant] in {"suspended", "revoked"} }

  /** For anyone but a super admin, a request that names a school acts in the caller's own stored
      membership the name denotes, or is refused: 403 if it denotes none, if it leads to another
      school than the caller's own and there is no account there, or if access was withdrawn;
      400 exactly if the membership found carries a reserved or empty tenant. */
  lemma HeaderSelectsAMembership(catalog: Catalog, t: Token, s: Stores, header: string)
    requires !Super(catalog, t, s) && Strip(header) != ""
    ensures var o, hit := Resolve(catalog, t, s, header), FindMembership(Memberships(t, s, false), Normal(header));
      && (hit.None? <==> t.email == "" || forall m :: m in s.memberships ==> Normal(m.tenant) != Normal(header))
      && (hit.None? ==> o == Refuse(NotAMember))
      && (hit.Some? ==>
            var named := hit.value.tenant;
            && hit.value in s.memberships && Normal(named) == Normal(header)
            && if Unusable(named) then
                 o == Refuse(if |s.memberships| > 1 then SelectTenant(s.memberships) else NoSchool)
               else if named != Home(catalog, t, s) && named !in s.users then o == Refuse(NotAMember)
               else if Withdrawn(s, named) then o == Refuse(AccessWithdrawn)
               else o.User? && o.tenant == Some(named))
      && (o.Refuse? && Code(o.why) == 400 <==> hit.Some? && Unusable(hit.value.tenant))
  {
    FindIsExact(Memberships(t, s, false), Normal(header));
  }

  /** A caller with several organization aliases and no tenant claim is never placed by a guess:
      without a header the answer is an error, with one it is a membership the caller chose. */
  lemma AmbiguousCallerIsNeverPlaced(catalog: Catalog, t: Token, s: Stores, header: string)
    requires !Super(catalog, t, s) && Ambiguous(t) && t.tenant == ""
    ensures var o := Resolve(catalog, t, s, header);
      && (Strip(header) == "" ==>
            o == Refuse(if t.email != "" && |s.memberships| > 1 then SelectTenant(s.memberships) else NoSchool))
      && (o.User? ==> o.tenant.Some? && HasMembership(s.memberships, o.tenant.value)
                      && Normal(o.tenant.value) == Normal(header))
  {
    FindIsExact(Memberships(t, s, false), Normal(header));
  }

  /** Everyone but a super admin ends up in a real school or is refused, and never in one whose
      membership is suspended or revoked. */
  lemma PlacedMeansUsableAndLive(catalog: Catalog, t: Token, s: Stores, header: string)
    requires !Super(catalog, t, s)
    ensures var o := Resolve(catalog, t, s, header);
      o.User? ==> o.tenant.Some? && !Unusable(o.tenant.value)
                  && (t.email != "" && o.tenant.value in s.status ==>
                    s.status[o.tenant.value] !in {"suspended", "revoked"})
  {
  }

  /** The role stored for the caller in that school is one the system knows. */
  predicate Recognised(catalog: Catalog, row: UserRow) {
    row.role in UNASSIGNED || (row.role != "" && Valid(catalog, row.role))
  }

  /** After a genuine switch the roles no longer depend on what the token brought along, if and
      only if the school's row has a recognised role; otherwise the token's role survives. */
  lemma SwitchForgetsTokenRoles(catalog: Catalog, row: UserRow)
    ensures (forall a, b :: ApplyUserRow(catalog, row, true, false, a) == ApplyUserRow(catalog, row, true, false, b))
            <==> Recognised(catalog, row)
    ensures forall a :: !Recognised(catalog, row) ==> ApplyUserRow(catalog, row, true, false, a).role == a.role
    ensures forall a, b ::
      ApplyUserRow(catalog, row, true, false, a).extracted == ApplyUserRow(catalog, row, true, false, b).extracted
  {
    var a, b := Roles("teacher", {}), Roles("parent", {});
    if !Recognised(catalog, row) {
      assert ApplyUserRow(catalog, row, true, false, a).role == "teacher";
      assert ApplyUserRow(catalog, row, true, false, b).role == "parent";
    }
  }

  /** Two tokens that differ in nothing but their role claims. */
  predicate SameButRoles(t: Token, u: Token) { u == t.(role := u.role, roles := u.roles) }

  predicate Switches(catalog: Catalog, t: Token, s: Stores, header: string) {
    var at := Settle(catalog, t, s, header);
    at.At? && at.switched
  }

  /** Non-interference: two such requests that both switch to the named school get the very same
      answer, whatever roles their tokens claim. */
  lemma SwitchIsNonInterfering(catalog: Catalog, t: Token, u: Token, s: Stores, header: string)
    requires SameButRoles(t, u) && !Super(catalog, t, s) && !Super(catalog, u, s)
    requires Switches(catalog, t, s, header) && Switches(catalog, u, s, header)
    requires var at := Settle(catalog, t, s, header);
      at.tenant.Some? && at.tenant.value in s.users ==> Recognised(catalog, s.users[at.tenant.value])
    ensures Resolve(catalog, t, s, header) == Resolve(catalog, u, s, header)
  {
    var a, b := Settle(catalog, t, s, header), Settle(catalog, u, s, header);
    FindIsExact(Memberships(t, s, false), Normal(header));
    assert a.tenant == b.tenant;
    if t.email != "" && a.tenant.Some? && a.tenant.value in s.users {
      SwitchForgetsTokenRoles(catalog, s.users[a.tenant.value]);
    }
  }

  // ------------------------------------------------------------------
  // Tenant, role and roles of the answer
  // ------------------------------------------------------------------

  /** The names the system knows: roles, platform permissions, and permissions of some role. */
  lemma KnownNames(catalog: Catalog, r: Role)
    ensures Valid(catalog, r) <==>
      || r in {"super_admin", "school_admin", "admin", "administrator", "manager", "teacher", "event_teacher",
               "parent", "student", "pending"}
      || r in {"system:write", "system:read", "tenant:manage", "tenant:view",
               "academic:direct", "academic:view", "content:create", "content:publish"}
      || (':' in r && exists c :: c in catalog && r in catalog[c])
  {
  }

  /** `roles` is `base` with what its composite roles stand for. */
  ghost predicate Unfolded(catalog: Catalog, roles: set<Role>, base: set<Role>) {
    forall x :: x in roles <==> x in base || exists r :: r in base && r in catalog && x in catalog[r]
  }

  /** What a row grants besides its main role. */
  ghost predicate Grants(catalog: Catalog, row: UserRow, x: Role) {
    || (x in row.roles && x != "" && Valid(catalog, x) && x !in {"pending", "none", "unassigned"})
    || (x in row.permissions && x != "")
  }

  /** After a genuine switch to another school the answer is a function of that school's row: the
      role is the row's, and the roles are its role, the known roles it lists and its permissions,
      unfolded; a row without an assigned role leaves the caller pending with nothing else. */
  lemma SwitchedAnswer(catalog: Catalog, t: Token, s: Stores, header: string)
    requires !Super(catalog, t, s) && Switches(catalog, t, s, header) && t.email != ""
    requires Resolve(catalog, t, s, header).User?
    ensures var o := Resolve(catalog, t, s, header);
      && o.tenant.Some? && o.tenant.value in s.users
      && var row := s.users[o.tenant.value];
         && (row.role in {"pending", "none", "unassigned"} ==>
               o.role == row.role && Unfolded(catalog, o.roles, {"pending"}))
         && (row.role !in {"pending", "none", "unassigned"} && row.role != "" && Valid(catalog, row.role) ==>
               && o.role == row.role
               && exists base :: Unfolded(catalog, o.roles, base)
                    && forall x :: x in base <==> x == row.role || Grants(catalog, row, x))
  {
    var o := Resolve(catalog, t, s, header);
    var row, settled := s.users[o.tenant.value], Settle(catalog, t, s, header);
    SwitchedRow(catalog, row, settled.roles);
    assert Unfolded(catalog, o.roles, ApplyUserRow(catalog, row, true, false, settled.roles).extracted);
  }

  lemma SwitchedRow(catalog: Catalog, row: UserRow, r: Roles)
    ensures var local := ApplyUserRow(catalog, row, true, false, r);
      && (row.role in {"pending", "none", "unassigned"} ==> local == Roles(row.role, {"pending"}))
      && (row.role !in {"pending", "none", "unassigned"} && row.role != "" && Valid(catalog, row.role) ==>
            && local.role == row.role
            && forall x :: x in local.extracted <==> x == row.role || Grants(catalog, row, x))
  {
  }

  /** The answer of a request that stays at the caller's own school `school`, given the role and
      roles it arrives with: suspended and revoked members are refused; without a row there
      nothing changes; a row without an assigned role leaves the caller pending; any other row
      adds its grants, replaces an unestablished role, and takes away a "student" it does not
      back. */
  ghost predicate AnswerAtHome(catalog: Catalog, s: Stores, school: Tenant, role: Role, roles: set<Role>, o: Outcome) {
    if school in s.status && s.status[school] in {"suspended", "revoked"} then o == Refuse(AccessWithdrawn)
    else
      && o.User? && o.tenant == Some(school)
      && if school !in s.users then o.role == role && Unfolded(catalog, o.roles, roles)
         else
           var row := s.users[school];
           if row.role in {"pending", "none", "unassigned"} then
             o.role == row.role && Unfolded(catalog, o.roles, {"pending"})
           else
             var known := row.role != "" && Valid(catalog, row.role);
             && o.role == (if known && role in {"student", "pending"} then row.role else role)
             && exists base :: Unfolded(catalog, o.roles, base)
                  && forall x :: x in base <==>
                       || (x in row.permissions && x != "")
                       || ((x in roles || (known && x == row.role) || Grants(catalog, row, x))
                           && !(x == "student" && row.role != "student" && "student" !in row.roles))
  }

  lemma HomeRow(catalog: Catalog, s: Stores, school: Tenant, r: Roles)
    requires school in s.users && !(school in s.status && s.status[school] in {"suspended", "revoked"})
    ensures var local := ApplyUserRow(catalog, s.users[school], false, false, r);
      AnswerAtHome(catalog, s, school, r.role, r.extracted,
                   User(Some(school), local.role, Expand(catalog, local.extracted)))
  {
    var row := s.users[school];
    var local := ApplyUserRow(catalog, row, false, false, r);
    var o := User(Some(school), local.role, Expand(catalog, local.extracted));
    assert Unfolded(catalog, o.roles, local.extracted);
    if row.role !in UNASSIGNED {
      var known := row.role != "" && Valid(catalog, row.role);
      forall x ensures x in local.extracted <==>
        || (x in row.permissions && x != "")
        || ((x in r.extracted || (known && x == row.role) || Grants(catalog, row, x))
            && !(x == "student" && row.role != "student" && "student" !in row.roles))
      {
      }
    }
  }

  /** Where the token itself says which school, and the role it claims is established, the request
      acts there, with those roles and what the school's row adds. */
  lemma ClaimedSchool(catalog: Catalog, t: Token, s: Stores, header: string)
    requires Strip(header) == "" && t.email != "" && !Super(catalog, t, s)
    requires t.tenant != "" && Lower(t.tenant) !in {"sams", "schooldesk", "master"}
    requires TokenRole(catalog, t) !in {"student", "pending"}
    ensures AnswerAtHome(catalog, s, t.tenant, TokenRole(catalog, t), TokenRoles(catalog, t),
                         Resolve(catalog, t, s, header))
  {
    StaysAtHome(catalog, t, s, header, Place(t.tenant, StartRoles(catalog, t, s)));
  }

  lemma StaysAtHome(catalog: Catalog, t: Token, s: Stores, header: string, p: Place)
    requires Strip(header) == "" && t.email != "" && !Super(catalog, t, s) && !Unusable(p.tenant)
    requires LastResort(catalog, t, s, Place(TokenTenant(t), StartRoles(catalog, t, s))) == p
    ensures AnswerAtHome(catalog, s, p.tenant, p.roles.role, p.roles.extracted, Resolve(catalog, t, s, header))
  {
    assert Settle(catalog, t, s, header) == At(Some(p.tenant), p.roles, false);
    if p.tenant in s.users && !Withdrawn(s, p.tenant) {
      HomeRow(catalog, s, p.tenant, p.roles);
    } else if !Withdrawn(s, p.tenant) {
      assert Unfolded(catalog, Expand(catalog, p.roles.extracted), p.roles.extracted);
    }
  }

  /** A token that establishes no role, or no school, is settled by the stored membership of the
      address, whatever school it names: its school, and its role where the token has none. */
  lemma MappedSchool(catalog: Catalog, t: Token, s: Stores, header: string)
    requires Strip(header) == "" && t.email != "" && !Super(catalog, t, s) && |t.aliases| <= 1
    requires s.mapping.Some? && !Unusable(s.mapping.value.tenant)
    requires TokenRole(catalog, t) in {"student", "pending"} || Unusable(TokenTenant(t))
    requires TokenRole(catalog, t) in {"student", "pending"} ==>
      Valid(catalog, s.mapping.value.role) && s.mapping.value.role !in {"", "student", "pending"}
    ensures var stored, claimed := s.mapping.value.role, TokenRole(catalog, t);
      var role := if claimed in {"student", "pending"} then stored else claimed;
      var roles := TokenRoles(catalog, t) + if claimed in {"student", "pending"} then
                     {stored} + (if stored in catalog then catalog[stored] else {}) else {};
      AnswerAtHome(catalog, s, s.mapping.value.tenant, role, roles, Resolve(catalog, t, s, header))
  {
    var start := StartRoles(catalog, t, s);
    var p := LastResort(catalog, t, s, Place(TokenTenant(t), start));
    MappingSettles(catalog, t, s, Place(TokenTenant(t), start));
    StaysAtHome(catalog, t, s, header, p);
  }

  lemma MappingSettles(catalog: Catalog, t: Token, s: Stores, p: Place)
    requires t.email != "" && |t.aliases| <= 1 && s.mapping.Some?
    requires p.roles.role in {"student", "pending"} || Unusable(p.tenant)
    requires p.roles.role in {"student", "pending"} ==>
      Valid(catalog, s.mapping.value.role) && s.mapping.value.role !in {"", "student", "pending"}
    ensures var q, stored := LastResort(catalog, t, s, p), s.mapping.value.role;
      && q.tenant == s.mapping.value.tenant
      && q.roles.role == (if p.roles.role in {"student", "pending"} then stored else p.roles.role)
      && q.roles.extracted == p.roles.extracted + if p.roles.role in {"student", "pending"} then
                                {stored} + (if stored in catalog then catalog[stored] else {}) else {}
  {
  }

  /** Without a membership either, by an invitation: its school and its role. */
  lemma InvitedSchool(catalog: Catalog, t: Token, s: Stores, header: string)
    requires Strip(header) == "" && t.email != "" && !Super(catalog, t, s) && |t.aliases| <= 1
    requires s.mapping.None? && s.invitation.Some? && !Unusable(s.invitation.value.tenant)
      && s.invitation.value.role != ""
    requires TokenRole(catalog, t) in {"student", "pending"} || Unusable(TokenTenant(t))
    ensures var role := s.invitation.value.role;
      var roles := TokenRoles(catalog, t) + {role} + if role in catalog then catalog[role] else {};
      AnswerAtHome(catalog, s, s.invitation.value.tenant, role, roles, Resolve(catalog, t, s, header))
  {
    var p := LastResort(catalog, t, s, Place(TokenTenant(t), StartRoles(catalog, t, s)));
    StaysAtHome(catalog, t, s, header, p);
  }

  /** With neither, and no membership list, by the first school that has a row for the address:
      that school, and the row's role if one is assigned. */
  lemma ScannedSchool(catalog: Catalog, t: Token, s: Stores, header: string, i: nat)
    requires Strip(header) == "" && t.email != "" && !Super(catalog, t, s) && |t.aliases| <= 1
    requires s.mapping.None? && s.invitation.None? && s.memberships == [] && Unusable(TokenTenant(t))
    requires i < |s.tenants| && s.tenants[i] in s.users && !Unusable(s.tenants[i])
    requires forall j :: 0 <= j < i ==> s.tenants[j] == "" || s.tenants[j] !in s.users
    ensures var school, found := s.tenants[i], s.users[s.tenants[i]].role;
      var named := found !in {"", "pending", "none", "unassigned"};
      AnswerAtHome(catalog, s, school, if named then found else TokenRole(catalog, t),
                   TokenRoles(catalog, t) + (if named then {found} else {}), Resolve(catalog, t, s, header))
  {
    ScanIsFirst(s.tenants, s.users, i);
    var start := StartRoles(catalog, t, s);
    var school, found := s.tenants[i], s.users[s.tenants[i]].role;
    var named := found !in {"", "pending", "none", "unassigned"};
    var r := Roles(if named then found else start.role, start.extracted + (if named then {found} else {}));
    assert start.extracted + {} == start.extracted;
    ScanSettles(catalog, t, s, header, school);
    assert Settle(catalog, t, s, header) == At(Some(school), r, false);
    if !Withdrawn(s, school) {
      HomeRow(catalog, s, school, r);
    }
  }

  lemma ScanSettles(catalog: Catalog, t: Token, s: Stores, header: string, school: Tenant)
    requires Strip(header) == "" && t.email != "" && !Super(catalog, t, s) && |t.aliases| <= 1
    requires s.mapping.None? && s.invitation.None? && s.memberships == [] && Unusable(TokenTenant(t))
    requires Scan(s.tenants, s.users) == Some(school) && school in s.users && !Unusable(school)
    ensures var at := Settle(catalog, t, s, header);
      at == At(Some(school), Scanned(t, s, false, Place(TokenTenant(t), StartRoles(catalog, t, s))).roles, false)
  {
    assert LastResort(catalog, t, s, Place(TokenTenant(t), StartRoles(catalog, t, s)))
           == Place(TokenTenant(t), StartRoles(catalog, t, s));
  }

  lemma {:induction false} ScanIsFirst(tenants: seq<Tenant>, users: map<Tenant, UserRow>, i: nat)
    requires i < |tenants| && tenants[i] != "" && tenants[i] in users
    requires forall j :: 0 <= j < i ==> tenants[j] == "" || tenants[j] !in users
    ensures Scan(tenants, users) == Some(tenants[i])
  {
    if i > 0 {
      assert tenants[0] == "" || tenants[0] !in users;
      assert forall j :: 0 <= j < i - 1 ==> tenants[1..][j] == tenants[j + 1];
      ScanIsFirst(tenants[1..], users, i - 1);
    }
  }

  /** The school a token names: the claim before all; then, unless several organizations leave it
      open, the one organization, the attribute, the first group part that names a tenant, and the
      realm, unless it is one of the shared ones. */
  lemma SchoolOfToken(t: Token)
    ensures t.tenant != "" ==> TokenTenant(t) == t.tenant
    ensures t.tenant == "" && |t.aliases| > 1 ==> TokenTenant(t) == ""
    ensures t.tenant == "" && |t.aliases| == 1 && t.aliases[0] != "" ==> TokenTenant(t) == t.aliases[0]
    ensures t.tenant == "" && |t.aliases| <= 1 && (t.aliases == [""] || t.aliases == []) ==>
      && (t.attribute != "" ==> TokenTenant(t) == t.attribute)
      && (t.attribute == "" ==>
            && (forall g, p :: FirstPart(t.groups, g, p) ==> TokenTenant(t) == t.groups[g][p])
            && ((forall g, p :: !NamesTenant(t.groups, g, p)) ==>
                  TokenTenant(t) == if t.realm.Some? && Lower(t.realm.value) !in {"sams", "schooldesk", "master"}
                                    then t.realm.value else ""))
  {
    forall g, p | FirstPart(t.groups, g, p) ensures FromGroups(t.groups) == t.groups[g][p] && t.groups[g][p] != "" {
      GroupsAreSearched(t.groups, g, p);
    }
    if forall g, p :: !NamesTenant(t.groups, g, p) {
      NothingInGroups(t.groups);
    }
  }

  predicate NamesTenant(groups: seq<seq<string>>, g: int, p: int) {
    && 0 <= g < |groups| && 0 <= p < |groups[g]|
    && |groups[g][p]| >= 7 && groups[g][p][..7] == "tenant_"
  }

  ghost predicate FirstPart(groups: seq<seq<string>>, g: int, p: int) {
    && NamesTenant(groups, g, p)
    && forall h, q :: NamesTenant(groups, h, q) ==> g < h || (g == h && p <= q)
  }

  lemma {:induction false} PartsAreSearched(parts: seq<string>, p: nat)
    requires p < |parts| && |parts[p]| >= 7 && parts[p][..7] == "tenant_"
    requires forall q :: 0 <= q < p ==> !(|parts[q]| >= 7 && parts[q][..7] == "tenant_")
    ensures FirstTenantPart(parts) == parts[p]
  {
    if p > 0 {
      assert forall q :: 0 <= q < p - 1 ==> parts[1..][q] == parts[q + 1];
      PartsAreSearched(parts[1..], p - 1);
    }
  }

  lemma {:induction false} NothingInParts(parts: seq<string>)
    requires forall q :: 0 <= q < |parts| ==> !(|parts[q]| >= 7 && parts[q][..7] == "tenant_")
    ensures FirstTenantPart(parts) == ""
  {
    if parts != [] {
      NothingInParts(parts[1..]);
    }
  }

  lemma {:induction false} GroupsAreSearched(groups: seq<seq<string>>, g: int, p: int)
    requires FirstPart(groups, g, p)
    ensures FromGroups(groups) == groups[g][p]
    decreases |groups|
  {
    forall q | 0 <= q < |groups[0]| && (g > 0 || q < p)
      ensures !(|groups[0][q]| >= 7 && groups[0][q][..7] == "tenant_")
    {
      assert !NamesTenant(groups, 0, q);
    }
    if g == 0 {
      PartsAreSearched(groups[0], p);
    } else {
      NothingInParts(groups[0]);
      forall h, q | NamesTenant(groups[1..], h, q) ensures g - 1 < h || (g - 1 == h && p <= q) {
        assert NamesTenant(groups, h + 1, q);
      }
      assert NamesTenant(groups[1..], g - 1, p);
      GroupsAreSearched(groups[1..], g - 1, p);
    }
  }

  lemma {:induction false} NothingInGroups(groups: seq<seq<string>>)
    requires forall g, p :: !NamesTenant(groups, g, p)
    ensures FromGroups(groups) == ""
  {
    if groups != [] {
      forall q | 0 <= q < |groups[0]| ensures !(|groups[0][q]| >= 7 && groups[0][q][..7] == "tenant_") {
        assert !NamesTenant(groups, 0, q);
      }
      NothingInParts(groups[0]);
      forall g, p ensures !NamesTenant(groups[1..], g, p) {
        assert !NamesTenant(groups, g + 1, p);
      }
      NothingInGroups(groups[1..]);
    }
  }

  /** The role a token claims, and what it brings along: nothing from Keycloak; a known name as it
      is, the three names of an administrator as one, anything else pending. Administrators hold
      both names; composite roles are unfolded. */
  lemma RolesOfToken(catalog: Catalog, t: Token)
    ensures t.keycloak || t.role == "" ==> TokenRole(catalog, t) == "pending"
    ensures !t.keycloak && t.role != "" ==>
      && (Normal(t.role) in {"admin", "administrator", "school_admin"} ==> TokenRole(catalog, t) == "school_admin")
      && (Normal(t.role) !in {"admin", "administrator", "school_admin"} ==>
            TokenRole(catalog, t) == if Valid(catalog, Normal(t.role)) then Normal(t.role) else "pending")
    ensures Unfolded(catalog, TokenRoles(catalog, t), BroughtRoles(catalog, t))
    ensures forall x :: x in BroughtRoles(catalog, t) <==>
      || Brought(catalog, t, x)
      || (x == "admin" && Brought(catalog, t, "school_admin")) || (x == "school_admin" && Brought(catalog, t, "admin"))
  {
    BroughtAreBase(catalog, t);
  }

  predicate Brought(catalog: Catalog, t: Token, x: Role) {
    x == TokenRole(catalog, t) || (!t.keycloak && x in t.roles && Valid(catalog, x))
  }

  function BroughtRoles(catalog: Catalog, t: Token): set<Role> {
    var listed := if t.keycloak then {} else set r | r in t.roles && Valid(catalog, r);
    listed + {TokenRole(catalog, t)}
    + (if Brought(catalog, t, "school_admin") then {"admin"} else {})
    + (if Brought(catalog, t, "admin") then {"school_admin"} else {})
  }

  lemma BroughtAreBase(catalog: Catalog, t: Token)
    ensures TokenRoles(catalog, t) == Expand(catalog, BroughtRoles(catalog, t))
  {
    var base := (if t.keycloak then {} else set r | r in t.roles && Valid(catalog, r)) + {TokenRole(catalog, t)};
    assert forall x :: x in base <==> Brought(catalog, t, x);
    var both := if "school_admin" in base then base + {"admin"}
                else if "admin" in base then base + {"school_admin"} else base;
    assert both == BroughtRoles(catalog, t);
  }

  /** Who is treated as super admin: whoever brings that role, or the address of one whose token
      claims no role. */
  lemma WhoIsSuper(catalog: Catalog, t: Token, s: Stores)
    ensures Super(catalog, t, s) <==>
      || "super_admin" in TokenRoles(catalog, t)
      || (TokenRole(catalog, t) == "pending" && t.email != "" && s.isSuperAdmin)
    ensures !Super(catalog, t, s) ==> StartRoles(catalog, t, s) == Roles(TokenRole(catalog, t), TokenRoles(catalog, t))
    ensures TokenRole(catalog, t) == "pending" && t.email != "" && s.isSuperAdmin ==>
      var start := StartRoles(catalog, t, s);
      && start.role == "super_admin"
      && forall x :: x in start.extracted <==>
           || x == "super_admin" || (x in TokenRoles(catalog, t) && x != "pending")
           || ("super_admin" in catalog && x in catalog["super_admin"])
  {
  }

  /** Naming one's own school is naming none. */
  lemma NamingTheOwnSchool(catalog: Catalog, t: Token, s: Stores, header: string)
    requires !Super(catalog, t, s) && Strip(header) != "" && Home(catalog, t, s) != "" && !Unusable(Home(catalog, t, s))
    requires FindMembership(Memberships(t, s, false), Normal(header)).Some?
    requires FindMembership(Memberships(t, s, false), Normal(header)).value.tenant == Home(catalog, t, s)
    ensures Resolve(catalog, t, s, header) == Resolve(catalog, t, s, "")
  {
    assert Settle(catalog, t, s, header) == Settle(catalog, t, s, "");
  }

  /** A super admin is never refused, and acts in the school named, in lower case, or in none if
      that is a reserved name. */
  lemma SuperAdminNamesAnySchool(catalog: Catalog, t: Token, s: Stores, header: string)
    requires Super(catalog, t, s)
    ensures Resolve(catalog, t, s, header).User?
    ensures Strip(header) != "" ==>
      Resolve(catalog, t, s, header).tenant ==
        if Normal(header) == "" || Lower(Normal(header)) in {"sams", "schooldesk", "master"} then None
        else Some(Normal(header))
  {
  }
}

/** The code itself: `tenant_id`, `role` and `extracted_roles` reassigned through loops and branches. */
module TenantResolution {
  import opened Wrappers
  import opened ResolutionModel

  /** `for r in list(extracted_roles): if r in COMPOSITE_ROLE_PERMISSIONS: extracted_roles.update(...)`. */
  method ExpandRoles(catalog: Catalog, roles: set<Role>) returns (expanded: set<Role>)
    ensures expanded == Expand(catalog, roles)
  {
    expanded := roles;
    var todo := roles;
    while todo != {}
      invariant todo <= roles
      invariant expanded == roles + set r, p | r in roles - todo && r in catalog && p in catalog[r] :: p
      decreases todo
    {
      var r :| r in todo;
      if r in catalog {
        expanded := expanded + catalog[r];
      }
      todo := todo - {r};
    }
  }

  /** The two nested loops over the `groups` claim. */
  method TenantFromGroups(groups: seq<seq<string>>) returns (tenant: Tenant)
    ensures tenant == FromGroups(groups)
  {
    tenant := "";
    var i := 0;
    while i < |groups|
      invariant 0 <= i <= |groups| && tenant == ""
      invariant FromGroups(groups) == FromGroups(groups[i..])
    {
      var parts, j := groups[i], 0;
      while j < |parts|
        invariant 0 <= j <= |parts| && tenant == ""
        invariant FirstTenantPart(parts) == FirstTenantPart(parts[j..])
      {
        if |parts[j]| >= 7 && parts[j][..7] == "tenant_" {
          return parts[j];
        }
        j := j + 1;
      }
      i := i + 1;
    }
  }

  method FindRequested(ms: seq<Membership>, wanted: string) returns (hit: Option<Membership>)
    ensures hit == FindMembership(ms, wanted)
  {
    var i := 0;
    while i < |ms|
      invariant 0 <= i <= |ms|
      invariant FindMembership(ms, wanted) == FindMembership(ms[i..], wanted)
    {
      if Normal(ms[i].tenant) == wanted {
        return Some(ms[i]);
      }
      i := i + 1;
    }
    hit := None;
  }

  method ScanTenants(tenants: seq<Tenant>, users: map<Tenant, UserRow>) returns (found: Option<Tenant>)
    ensures found == Scan(tenants, users)
  {
    var i := 0;
    while i < |tenants|
      invariant 0 <= i <= |tenants|
      invariant Scan(tenants, users) == Scan(tenants[i..], users)
    {
      if tenants[i] != "" && tenants[i] in users {
        return Some(tenants[i]);
      }
      i := i + 1;
    }
    found := None;
  }

  /** The school's own row, applied in place to `role` and `extracted_roles`. */
  method RolesFromRow(catalog: Catalog, row: UserRow, switched: bool, super: bool, role0: Role, extracted0: set<Role>)
    returns (role: Role, extracted: set<Role>)
    ensures Roles(role, extracted) == ApplyUserRow(catalog, row, switched, super, Roles(role0, extracted0))
  {
    role, extracted := role0, extracted0;
    if switched {
      extracted := {};
    }
    if row.role in UNASSIGNED && !super {
      return row.role, {"pending"};
    }
    if row.role != "" && Valid(catalog, row.role) {
      extracted := extracted + {row.role};
      if switched || role in {"student", "pending"} {
        role := row.role;
      }
    }
    extracted := AddListed(catalog, row.roles, extracted);
    if "student" in extracted && row.role != "student" && "student" !in row.roles {
      extracted := extracted - {"student"};
    }
    extracted := AddPermissions(row.permissions, extracted);
  }

  method AddListed(catalog: Catalog, listed: seq<Role>, extracted0: set<Role>) returns (extracted: set<Role>)
    ensures extracted == extracted0 + set x | x in listed && x != "" && Valid(catalog, x) && x !in UNASSIGNED
  {
    extracted := extracted0;
    for i := 0 to |listed|
      invariant extracted == extracted0 + set x | x in listed[..i] && x != "" && Valid(catalog, x) && x !in UNASSIGNED
    {
      assert listed[..i + 1] == listed[..i] + [listed[i]];
      if listed[i] != "" && Valid(catalog, listed[i]) && listed[i] !in UNASSIGNED {
        extracted := extracted + {listed[i]};
      }
    }
    assert listed[..|listed|] == listed;
  }

  method AddPermissions(permissions: seq<Role>, extracted0: set<Role>) returns (extracted: set<Role>)
    ensures extracted == extracted0 + set x | x in permissions && x != ""
  {
    extracted := extracted0;
    for i := 0 to |permissions|
      invariant extracted == extracted0 + set x | x in permissions[..i] && x != ""
    {
      assert permissions[..i + 1] == permissions[..i] + [permissions[i]];
      if permissions[i] != "" {
        extracted := extracted + {permissions[i]};
      }
    }
    assert permissions[..|permissions|] == permissions;
  }

  /** The steps that look for a school in the token alone. */
  method TenantFromToken(t: Token) returns (tenant: Tenant)
    ensures tenant == TokenTenant(t)
  {
    tenant := t.tenant;
    var orgAmbiguous := |t.aliases| > 1;
    if tenant == "" && |t.aliases| == 1 {
      tenant := t.aliases[0];
    }
    if tenant == "" && !orgAmbiguous {
      tenant := t.attribute;
    }
    if tenant == "" && !orgAmbiguous {
      tenant := TenantFromGroups(t.groups);
    }
    if tenant == "" && !orgAmbiguous && t.realm.Some? {
      if Lower(t.realm.value) !in RESERVED {
        tenant := t.realm.value;
      }
    }
  }

  /** The look-up by address in the control plane, for callers without a usable school or role. */
  method LookUpByEmail(catalog: Catalog, t: Token, s: Stores, tenant0: Tenant, role0: Role, extracted0: set<Role>)
    returns (tenant: Tenant, role: Role, extracted: set<Role>)
    ensures Place(tenant, Roles(role, extracted)) == LastResort(catalog, t, s, Place(tenant0, Roles(role0, extracted0)))
  {
    tenant, role, extracted := tenant0, role0, extracted0;
    if Ambiguous(t) || t.email == "" || !(Unusable(tenant) || role in {"student", "pending"}) {
      return;
    }
    if s.mapping.Some? {
      tenant := s.mapping.value.tenant;
      var stored := s.mapping.value.role;
      if role in {"student", "pending"} && stored != "" && Valid(catalog, stored) {
        role := stored;
        extracted := extracted + {role};
        if role in catalog {
          extracted := extracted + catalog[role];
        }
      }
    }
    if s.mapping.None? || role in {"student", "pending"} {
      if s.invitation.Some? && s.invitation.value.tenant != "" && s.invitation.value.role != "" {
        tenant, role := s.invitation.value.tenant, s.invitation.value.role;
        extracted := extracted + {role};
        if role in catalog {
          extracted := extracted + catalog[role];
        }
      }
    }
  }

  /** The school part of `get_current_user`, from the token to the fail-closed check. */
  method SettleTenant(catalog: Catalog, t: Token, s: Stores, header: string) returns (settled: Settled)
    ensures settled == Settle(catalog, t, s, header)
  {
    var start := StartRoles(catalog, t, s);
    var super := IsSuper(start);
    var memberships := if super || t.email == "" then [] else s.memberships;
    var tenant := TenantFromToken(t);
    var role, extracted;
    tenant, role, extracted := LookUpByEmail(catalog, t, s, tenant, start.role, start.extracted);
    var switched := false;
    if Strip(header) != "" {
      var wanted := Normal(header);
      if super {
        tenant := wanted;
      } else {
        var hit := FindRequested(memberships, wanted);
        if hit.None? {
          return Stop(NotAMember);
        }
        if hit.value.tenant != tenant {
          tenant := hit.value.tenant;
          switched := true;
        }
      }
    }
    if Unusable(tenant) && t.email != "" && !super && !Ambiguous(t) && memberships == [] {
      var found := ScanTenants(s.tenants, s.users);
      if found.Some? {
        tenant := found.value;
        if tenant in s.users && s.users[tenant].role != "" && s.users[tenant].role !in UNASSIGNED {
          role := s.users[tenant].role;
          extracted := extracted + {role};
        }
      }
    }
    if Unusable(tenant) {
      if super {
        return At(None, Roles(role, extracted), switched);
      } else if |memberships| > 1 {
        return Stop(SelectTenant(memberships));
      } else {
        return Stop(NoSchool);
      }
    }
    settled := At(Some(tenant), Roles(role, extracted), switched);
  }

  /** `get_current_user` after the token is verified. */
  method GetCurrentUser(catalog: Catalog, t: Token, s: Stores, header: string) returns (o: Outcome)
    ensures o == Resolve(catalog, t, s, header)
  {
    var super := IsSuper(StartRoles(catalog, t, s));
    var settled := SettleTenant(catalog, t, s, header);
    if settled.Stop? {
      return Refuse(settled.why);
    }
    var tenant, switched := settled.tenant, settled.switched;
    var role, extracted := settled.roles.role, settled.roles.extracted;
    if t.email != "" && tenant.Some? {
      if tenant.value in s.users {
        role, extracted := RolesFromRow(catalog, s.users[tenant.value], switched, super, role, extracted);
      } else if switched {
        return Refuse(NotAMember);
      }
    }
    extracted := ExpandRoles(catalog, extracted);
    if !super && tenant.Some? && t.email != "" && tenant.value in s.status {
      if s.status[tenant.value] in {"suspended", "revoked"} {
        return Refuse(AccessWithdrawn);
      }
    }
    o := User(tenant, role, extracted);
  }
}
