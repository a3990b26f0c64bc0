/** Refresh-token rotation with reuse detection: `issue_refresh_token` and
    `rotate_refresh_token` of `app/domains/auth/service.py` over the `refresh_tokens` table.

    A request is one atomic step.  An opaque token and its SHA-256 hash are one value
    (the hash is taken to be injective); row ids, tokens and families are drawn from one
    counter, which is what makes `uuid4` and `token_urlsafe` fresh. */
module RefreshTokens {
  import opened Wrappers

  type Token = nat
  type Id = nat
  type Time = nat

  const LIFETIME: Time := 30 * 24 * 60 * 60   // REFRESH_TOKEN_EXPIRATION_DAYS, in seconds

  datatype Row = Row(
    id: Id, identity: nat, tenant: string, role: string, family: nat,
    revoked: bool, replacedBy: Option<Id>, expiresAt: Time)

  /** What `_resolve_local_account` found for the row's identity, tenant and role. */
  datatype Account = Account(userId: nat, role: string)

  datatype TokenError = InvalidToken | ExpiredToken | AccountGone

  datatype State = State(
    rows: map<Token, Row>,       // refresh_tokens, by its unique token_hash
    now: Time,
    nextId: nat,
    redeemed: seq<Token>,        // history: every token a new session was minted from
    reused: set<nat>)            // history: families one of whose revoked tokens was presented

  datatype Request =
    | Issue(identity: nat, tenant: string, role: string)
    | Rotate(token: Token, account: Option<Account>)
    | Tick(seconds: nat)

  datatype Reply = NewToken(token: Token) | Refused(error: TokenError) | Elapsed

  function Initial(): State { State(map[], 0, 0, [], {}) }

  /** The `UPDATE ... WHERE family_id = $1 AND revoked_at IS NULL` of family revocation. */
  function RevokeFamily(rows: map<Token, Row>, family: nat): (r: map<Token, Row>)
    ensures r.Keys == rows.Keys
  {
    map t | t in rows :: if rows[t].family == family then rows[t].(revoked := true) else rows[t]
  }

  /** The `UPDATE ... WHERE id = $1` of rotation. */
  function MarkRotated(rows: map<Token, Row>, oldId: Id, newId: Id): (r: map<Token, Row>)
    ensures r.Keys == rows.Keys
  {
    map t | t in rows ::
      if rows[t].id == oldId then rows[t].(revoked := true, replacedBy := Some(newId)) else rows[t]
  }

  /** Whether presenting `token` now mints a session. */
  predicate Accepts(s: State, token: Token, account: Option<Account>) {
    token in s.rows && !s.rows[token].revoked && s.now < s.rows[token].expiresAt && account.Some?
  }

  function Next(s: State, r: Request): State {
    match r
    case Tick(seconds) => s.(now := s.now + seconds)
    case Issue(identity, tenant, role) =>
      s.(rows := s.rows[s.nextId := Row(s.nextId + 1, identity, tenant, role, s.nextId + 2, false, None,
                                        s.now + LIFETIME)],
         nextId := s.nextId + 3)
    case Rotate(token, account) =>
      if Accepts(s, token, account) then
        var row := s.rows[token];
        var minted := Row(s.nextId + 1, row.identity, row.tenant, account.value.role, row.family, false, None,
                          s.now + LIFETIME);
        s.(rows := MarkRotated(s.rows[s.nextId := minted], row.id, s.nextId + 1),
           nextId := s.nextId + 2,
           redeemed := s.redeemed + [token])
      else if token in s.rows && s.rows[token].revoked then
        s.(rows := RevokeFamily(s.rows, s.rows[token].family), reused := s.reused + {s.rows[token].family})
      else s
  }

  function Answer(s: State, r: Request): Reply {
    match r
    case Tick(_) => Elapsed
    case Issue(_, _, _) => NewToken(s.nextId)
    case Rotate(token, account) =>
      if Accepts(s, token, account) then NewToken(s.nextId)
      else if token in s.rows && !s.rows[token].revoked && s.rows[token].expiresAt <= s.now then Refused(ExpiredToken)
      else if token in s.rows && !s.rows[token].revoked then Refused(AccountGone)
      else Refused(InvalidToken)
  }

  function After(s: State, requests: seq<Request>): State
    decreases |requests|
  {
    if requests == [] then s else After(Next(s, requests[0]), requests[1..])
  }

  // ------------------------------------------------------------------
  // The invariant
  // ------------------------------------------------------------------

  predicate Live(s: State, t: Token) { t in s.rows && !s.rows[t].revoked }

  predicate Kin(s: State, t: Token, u: Token) { t in s.rows && u in s.rows && s.rows[t].family == s.rows[u].family }

  /** Tokens are minted in increasing order, so `t < u` reads "t was minted before u". */
  ghost predicate Fresh(s: State) {
    forall t :: t in s.rows ==> t < s.nextId && s.rows[t].id == t + 1 && t + 1 < s.nextId && s.rows[t].family < s.nextId
  }

  /** The successor of `t` in its family is the next token minted there. */
  ghost predicate Succeeds(s: State, t: Token, u: Token) {
    Kin(s, t, u) && t < u && forall v: Token :: Kin(s, t, v) ==> v <= t || u <= v
  }

  /** Every token but the youngest of its family was replaced, by exactly its successor. */
  ghost predicate Chained(s: State) {
    && (forall t :: t in s.rows && s.rows[t].replacedBy.Some? ==>
          exists u :: Succeeds(s, t, u) && s.rows[t].replacedBy == Some(s.rows[u].id))
    && (forall t, u :: Kin(s, t, u) && t < u ==> s.rows[t].replacedBy.Some? && s.rows[t].revoked)
  }

  ghost predicate OneOwner(s: State) {
    forall t, u :: Kin(s, t, u) ==> s.rows[t].identity == s.rows[u].identity && s.rows[t].tenant == s.rows[u].tenant
  }

  /** The log of minted sessions names exactly the replaced tokens, each once. */
  ghost predicate RedeemedOnce(s: State) {
    && (forall i, j :: 0 <= i < j < |s.redeemed| ==> s.redeemed[i] != s.redeemed[j])
    && (forall t :: t in s.redeemed <==> t in s.rows && s.rows[t].replacedBy.Some?)
  }

  ghost predicate ReusedAreDead(s: State) {
    && (forall t :: t in s.rows && s.rows[t].family in s.reused ==> s.rows[t].revoked)
    && (forall f :: f in s.reused ==> f < s.nextId)
  }

  ghost predicate Inv(s: State) {
    Fresh(s) && Chained(s) && OneOwner(s) && RedeemedOnce(s) && ReusedAreDead(s)
  }

  lemma TickKeepsInv(s: State, seconds: nat)
    requires Inv(s)
    ensures Inv(Next(s, Tick(seconds)))
  {
    var s' := Next(s, Tick(seconds));
    SameRowsKeepChain(s, s');
  }

  lemma SameRowsKeepChain(s: State, s': State)
    requires Chained(s) && s'.rows.Keys == s.rows.Keys
    requires forall t :: t in s.rows ==>
      && s'.rows[t].family == s.rows[t].family && s'.rows[t].id == s.rows[t].id
      && s'.rows[t].replacedBy == s.rows[t].replacedBy && (s.rows[t].revoked ==> s'.rows[t].revoked)
    ensures Chained(s')
  {
    forall t | t in s'.rows && s'.rows[t].replacedBy.Some?
      ensures exists u :: Succeeds(s', t, u) && s'.rows[t].replacedBy == Some(s'.rows[u].id)
    {
      var u :| Succeeds(s, t, u) && s.rows[t].replacedBy == Some(s.rows[u].id);
      assert forall v: Token :: Kin(s', t, v) ==> Kin(s, t, v);
      assert Succeeds(s', t, u);
    }
    forall t, u | Kin(s', t, u) && t < u
      ensures s'.rows[t].replacedBy.Some? && s'.rows[t].revoked
    {
      assert Kin(s, t, u);
    }
  }

  /** Revoking a whole family breaks no link of any chain. */
  lemma ReuseKeepsInv(s: State, token: Token, account: Option<Account>)
    requires Inv(s) && token in s.rows && s.rows[token].revoked
    ensures Inv(Next(s, Rotate(token, account)))
  {
    var s' := Next(s, Rotate(token, account));
    SameRowsKeepChain(s, s');
    assert forall t, u :: Kin(s', t, u) ==> Kin(s, t, u);
  }

  lemma IssueKeepsInv(s: State, identity: nat, tenant: string, role: string)
    requires Inv(s)
    ensures Inv(Next(s, Issue(identity, tenant, role)))
  {
    var s' := Next(s, Issue(identity, tenant, role));
    var n := s.nextId;
    assert forall t :: t in s.rows ==> !Kin(s', t, n) && s'.rows[t] == s.rows[t];
    assert forall t, u :: Kin(s', t, u) ==> (t == n && u == n) || Kin(s, t, u);
    forall t | t in s'.rows && s'.rows[t].replacedBy.Some?
      ensures exists u :: Succeeds(s', t, u) && s'.rows[t].replacedBy == Some(s'.rows[u].id)
    {
      var u :| Succeeds(s, t, u) && s.rows[t].replacedBy == Some(s.rows[u].id);
      assert Succeeds(s', t, u);
    }
  }

  lemma ReplacedIsRevoked(s: State, x: Token)
    requires Chained(s) && x in s.rows
    ensures s.rows[x].replacedBy.Some? ==> s.rows[x].revoked
  {
  }

  /** A live token is the youngest of its family, and no token was minted from it yet. */
  lemma LiveIsYoungest(s: State, x: Token)
    requires Inv(s) && Live(s, x)
    ensures forall v: Token :: Kin(s, x, v) ==> v <= x
    ensures s.rows[x].replacedBy.None? && x !in s.redeemed
    ensures s.rows[x].family !in s.reused
  {
    forall v: Token | Kin(s, x, v)
      ensures v <= x
    {
    }
    ReplacedIsRevoked(s, x);
  }

  /** What one accepted rotation does to the table: one new row, one row changed. */
  ghost predicate Rotated(s: State, s': State, x: Token) {
    var n := s.nextId;
    && x in s.rows && n in s'.rows
    && s'.rows.Keys == s.rows.Keys + {n}
    && (forall t :: t in s.rows && t != x ==> s'.rows[t] == s.rows[t])
    && s'.rows[x] == s.rows[x].(revoked := true, replacedBy := Some(n + 1))
    && s'.rows[n].id == n + 1 && s'.rows[n].family == s.rows[x].family
    && s'.rows[n].identity == s.rows[x].identity && s'.rows[n].tenant == s.rows[x].tenant
    && !s'.rows[n].revoked && s'.rows[n].replacedBy.None?
    && s'.nextId == n + 2
  }

  lemma RotateRows(s: State, x: Token, account: Option<Account>)
    requires Fresh(s) && Accepts(s, x, account)
    ensures Rotated(s, Next(s, Rotate(x, account)), x)
  {
  }

  lemma RotatedKeepsOwner(s: State, s': State, x: Token)
    requires Fresh(s) && OneOwner(s) && Rotated(s, s', x)
    ensures Fresh(s') && OneOwner(s')
  {
  }

  lemma RotateKeepsLog(s: State, x: Token, account: Option<Account>)
    requires Inv(s) && Accepts(s, x, account)
    ensures var s' := Next(s, Rotate(x, account)); RedeemedOnce(s') && ReusedAreDead(s')
  {
    LiveIsYoungest(s, x);
    RotateRows(s, x, account);
  }

  /** The new row becomes the youngest of the family, right after the row it replaces. */
  lemma RotatedKeepsChain(s: State, s': State, x: Token)
    requires Fresh(s) && Chained(s) && Rotated(s, s', x)
    requires forall v: Token :: Kin(s, x, v) ==> v <= x
    ensures Chained(s')
  {
    var n := s.nextId;
    assert forall t: Token, u: Token :: t in s.rows && u in s.rows ==> (Kin(s', t, u) <==> Kin(s, t, u));
    assert forall t: Token :: t in s.rows ==> (Kin(s', t, n) <==> Kin(s, t, x));
    forall t | t in s'.rows && s'.rows[t].replacedBy.Some?
      ensures exists u :: Succeeds(s', t, u) && s'.rows[t].replacedBy == Some(s'.rows[u].id)
    {
      if t == x {
        assert Succeeds(s', x, n);
      } else {
        var u :| Succeeds(s, t, u) && s.rows[t].replacedBy == Some(s.rows[u].id);
        assert Succeeds(s', t, u);
      }
    }
  }

  lemma StepKeepsInv(s: State, r: Request)
    requires Inv(s)
    ensures Inv(Next(s, r))
  {
    match r {
      case Tick(seconds) => TickKeepsInv(s, seconds);
      case Issue(i, t, o) => IssueKeepsInv(s, i, t, o);
      case Rotate(x, account) =>
        if Accepts(s, x, account) {
          LiveIsYoungest(s, x);
          RotateRows(s, x, account);
          RotatedKeepsOwner(s, Next(s, r), x);
          RotatedKeepsChain(s, Next(s, r), x);
          RotateKeepsLog(s, x, account);
        } else if x in s.rows && s.rows[x].revoked {
          ReuseKeepsInv(s, x, account);
        }
    }
  }

  lemma {:induction false} RunKeepsInv(s: State, requests: seq<Request>)
    requires Inv(s)
    ensures Inv(After(s, requests))
    decreases |requests|
  {
    if requests != [] {
      StepKeepsInv(s, requests[0]);
      RunKeepsInv(Next(s, requests[0]), requests[1..]);
    }
  }

  // ------------------------------------------------------------------
  // What every run guarantees
  // ------------------------------------------------------------------

  /** Over every run from an empty table: a family never has two live tokens, all its tokens
      belong to one identity and one school, `replaced_by` links each token to the next one
      minted, and no token ever bought two sessions. */
  lemma RotationIsSafe(requests: seq<Request>)
    ensures var s := After(Initial(), requests);
      && (forall t, u :: Live(s, t) && Live(s, u) && Kin(s, t, u) ==> t == u)
      && OneOwner(s) && Chained(s) && RedeemedOnce(s)
  {
    RunKeepsInv(Initial(), requests);
    var s := After(Initial(), requests);
    forall t, u | Live(s, t) && Live(s, u) && Kin(s, t, u)
      ensures t == u
    {
      LiveIsYoungest(s, t);
      LiveIsYoungest(s, u);
      assert Kin(s, u, t);
    }
  }

  /** The `replaced_by` path starting at a token. */
  ghost predicate LinkPath(s: State, path: seq<Token>) {
    && (forall i :: 0 <= i < |path| ==> path[i] in s.rows)
    && forall i :: 0 <= i < |path| - 1 ==> s.rows[path[i]].replacedBy == Some(s.rows[path[i + 1]].id)
  }

  /** Following `replaced_by` only ever moves to a younger token of the same family:
      the links of a family cannot close into a cycle. */
  lemma {:induction false} LinksAreAcyclic(s: State, path: seq<Token>)
    requires Inv(s) && LinkPath(s, path) && |path| >= 2
    ensures path[0] < path[|path| - 1] && Kin(s, path[0], path[|path| - 1])
    decreases |path|
  {
    var x, y := path[0], path[1];
    assert s.rows[path[0]].replacedBy == Some(s.rows[path[0 + 1]].id);
    var u :| Succeeds(s, x, u) && s.rows[x].replacedBy == Some(s.rows[u].id);
    assert u == y;
    if |path| > 2 {
      var rest := path[1..];
      forall i | 0 <= i < |rest| - 1
        ensures s.rows[rest[i]].replacedBy == Some(s.rows[rest[i + 1]].id)
      {
        assert s.rows[path[i + 1]].replacedBy == Some(s.rows[path[i + 1 + 1]].id);
      }
      LinksAreAcyclic(s, rest);
    }
  }

  /** Revocation is permanent, row by row. */
  lemma {:induction false} RevokedStaysRevoked(s: State, requests: seq<Request>, t: Token)
    requires Inv(s) && t in s.rows && s.rows[t].revoked
    ensures var e := After(s, requests); t in e.rows && e.rows[t].revoked && e.rows[t].family == s.rows[t].family
    decreases |requests|
  {
    if requests != [] {
      StepKeepsInv(s, requests[0]);
      RevokedStaysRevoked(Next(s, requests[0]), requests[1..], t);
    }
  }

  lemma {:induction false} ReusedStaysReused(s: State, requests: seq<Request>, f: nat)
    requires f in s.reused
    ensures f in After(s, requests).reused
    decreases |requests|
  {
    if requests != [] {
      ReusedStaysReused(Next(s, requests[0]), requests[1..], f);
    }
  }

  /** After any revoked token is presented its family is dead for good: however the run goes
      on, every token of that family, old or yet unseen, stays revoked and is refused. */
  lemma ReuseKillsFamily(s: State, token: Token, account: Option<Account>, later: seq<Request>,
                         t: Token, account': Option<Account>)
    requires Inv(s) && token in s.rows && s.rows[token].revoked
    ensures Answer(s, Rotate(token, account)) == Refused(InvalidToken)
    ensures var e := After(Next(s, Rotate(token, account)), later);
      t in e.rows && e.rows[t].family == s.rows[token].family ==>
        e.rows[t].revoked && Answer(e, Rotate(t, account')) == Refused(InvalidToken)
  {
    var s1 := Next(s, Rotate(token, account));
    StepKeepsInv(s, Rotate(token, account));
    RunKeepsInv(s1, later);
    ReusedStaysReused(s1, later, s.rows[token].family);
  }

  /** A token that bought a session buys no other, at any later moment of any run. */
  lemma RedeemedTokenIsSpent(s: State, t: Token, account: Option<Account>, later: seq<Request>,
                             account': Option<Account>)
    requires Inv(s) && Accepts(s, t, account)
    ensures Answer(After(Next(s, Rotate(t, account)), later), Rotate(t, account')) == Refused(InvalidToken)
  {
    StepKeepsInv(s, Rotate(t, account));
    RevokedStaysRevoked(Next(s, Rotate(t, account)), later, t);
  }

  /** What a request stores: an issue one row for whom it names, valid for thirty days, in a family
      of its own; a rotation one row of the old one's family, owner and school, with the role the
      account has now, likewise for thirty days, while the old row is revoked and points to it.
      Reuse revokes the family; no other row ever changes, and nothing else is stored. */
  lemma WhatIsStored(s: State, r: Request, t: Token)
    requires Inv(s)
    ensures var s', new_ := Next(s, r), s.nextId;
      && (r.Issue? ==>
            && s'.rows.Keys == s.rows.Keys + {new_} && (t in s.rows ==> s'.rows[t] == s.rows[t])
            && var row := s'.rows[new_];
               && row.identity == r.identity && row.tenant == r.tenant && row.role == r.role
               && !row.revoked && row.replacedBy.None? && row.expiresAt == s.now + 2592000
               && forall u :: u in s.rows ==> s.rows[u].family != row.family)
      && (r.Rotate? && r.token in s.rows && !s.rows[r.token].revoked && s.now < s.rows[r.token].expiresAt
            && r.account.Some? ==>
            && s'.rows.Keys == s.rows.Keys + {new_}
            && (t in s.rows && t != r.token ==> s'.rows[t] == s.rows[t])
            && var was, row := s.rows[r.token], s'.rows[new_];
               && row.identity == was.identity && row.tenant == was.tenant && row.family == was.family
               && row.role == r.account.value.role && !row.revoked && row.replacedBy.None?
               && row.expiresAt == s.now + 2592000
               && s'.rows[r.token] == was.(revoked := true, replacedBy := Some(row.id)))
      && (r.Rotate? && r.token in s.rows && s.rows[r.token].revoked ==>
            && s'.rows.Keys == s.rows.Keys
            && (t in s.rows ==>
                  s'.rows[t] == s.rows[t].(revoked := s.rows[t].revoked || s.rows[t].family == s.rows[r.token].family)))
      && (r.Tick? || (r.Rotate? && (r.token !in s.rows ||
            (!s.rows[r.token].revoked && (s.rows[r.token].expiresAt <= s.now || r.account.None?)))) ==>
            s'.rows == s.rows)
  {
    if r.Rotate? && Accepts(s, r.token, r.account) {
      forall u | u in s.rows && u != r.token ensures s.rows[u].id != s.rows[r.token].id {
      }
    }
  }

  /** The answers: a token for an issue and for an accepted rotation; otherwise unknown and reused
      tokens are invalid, then come expiry and the missing account. */
  lemma WhatIsAnswered(s: State, token: Token, account: Option<Account>)
    ensures var reply := Answer(s, Rotate(token, account));
      if token !in s.rows || s.rows[token].revoked then reply == Refused(InvalidToken)
      else if s.rows[token].expiresAt <= s.now then reply == Refused(ExpiredToken)
      else if account.None? then reply == Refused(AccountGone)
      else reply == NewToken(s.nextId) && s.nextId in Next(s, Rotate(token, account)).rows
  {
  }

  /** The token just issued or rotated in is the one that will be accepted, until it expires. */
  lemma FreshTokenWorks(s: State, t: Token, account: Option<Account>, seconds: nat, account': Option<Account>)
    requires Inv(s) && Accepts(s, t, account)
    ensures var s1 := Next(s, Rotate(t, account));
      Accepts(Next(s1, Tick(seconds)), s.nextId, account') <==> seconds < LIFETIME && account'.Some?
  {
  }
}

/** The table and the two service methods, statement by statement. */
module RefreshTokenStore {
  import opened Wrappers
  import opened RefreshTokens

  class Store {
    var rows: map<Token, Row>
    var now: Time
    var nextId: nat
    ghost var redeemed: seq<Token>
    ghost var reused: set<nat>

    ghost function Abs(): State
      reads this
    {
      State(rows, now, nextId, redeemed, reused)
    }

    constructor ()
      ensures Abs() == Initial()
    {
      rows, now, nextId, redeemed, reused := map[], 0, 0, [], {};
    }

    method CreateRefreshToken(identity: nat, tenant: string, role: string, family: nat, expiresAt: Time)
      returns (raw: Token)
      modifies this`rows, this`nextId
      ensures raw == old(nextId) && nextId == old(nextId) + 2
      ensures rows == old(rows)[raw := Row(raw + 1, identity, tenant, role, family, false, None, expiresAt)]
    {
      raw := nextId;
      rows := rows[raw := Row(raw + 1, identity, tenant, role, family, false, None, expiresAt)];
      nextId := nextId + 2;
    }

    method IssueRefreshToken(identity: nat, tenant: string, role: string) returns (raw: Token)
      modifies this
      ensures Abs() == Next(old(Abs()), Issue(identity, tenant, role))
      ensures Answer(old(Abs()), Issue(identity, tenant, role)) == NewToken(raw)
    {
      var family := nextId + 2;
      raw := CreateRefreshToken(identity, tenant, role, family, now + LIFETIME);
      nextId := nextId + 1;
    }

    method RotateRefreshToken(token: Token, account: Option<Account>) returns (reply: Reply)
      modifies this
      ensures Abs() == Next(old(Abs()), Rotate(token, account))
      ensures reply == Answer(old(Abs()), Rotate(token, account))
    {
      if token !in rows {
        return Refused(InvalidToken);
      }
      var row := rows[token];
      if row.revoked {
        rows := RevokeFamily(rows, row.family);
        reused := reused + {row.family};
        return Refused(InvalidToken);
      }
      if row.expiresAt <= now {
        return Refused(ExpiredToken);
      }
      if account.None? {
        return Refused(AccountGone);
      }
      var raw := CreateRefreshToken(row.identity, row.tenant, account.value.role, row.family, now + LIFETIME);
      rows := MarkRotated(rows, row.id, rows[raw].id);
      redeemed := redeemed + [token];
      reply := NewToken(raw);
    }
  }
}
