/** Refresh-token families: every interleaving of the read, conditional-update, insert and
  * revoke statements of concurrent requests, which share no transaction.
  */
module Sessions {
  import opened Model

  datatype Token = Token(family: nat, expiresAt: Time, rotatedAt: Option<Time>, revokedAt: Option<Time>)

  type Table = map<nat, Token>

  predicate Current(t: Token) {
    t.rotatedAt.None? && t.revokedAt.None?
  }

  // ------------------------------------------------------------------- statements

  // rotateRefreshTokenIfUnrotated: no row comes back unless the token is still current.
  function RotateIfUnrotated(tokens: Table, id: nat, now: Time): Table {
    if id in tokens && Current(tokens[id]) then tokens[id := tokens[id].(rotatedAt := Some(now))] else tokens
  }

  // revokeRefreshTokenFamily
  function RevokeFamily(tokens: Table, family: nat, now: Time): Table {
    map id | id in tokens ::
      if tokens[id].family == family && tokens[id].revokedAt.None? then tokens[id].(revokedAt := Some(now)) else tokens[id]
  }

  // deleteExpiredRefreshTokens
  function DeleteExpired(tokens: Table, now: Time): Table {
    map id | id in tokens && tokens[id].expiresAt >= now :: tokens[id]
  }

  // ------------------------------------------------------------------ the protocol

  // A request between two of its statements.
  datatype Phase =
    | Rotating(token: nat, family: nat)   // read a current token
    | Inserting(family: nat, parent: nat) // won the rotation, has not inserted yet
    | Revoking(family: nat)

  // `parents` records for every token ever inserted which token it was rotated from, and
  // `families` which families were started; both are history only.
  datatype Sys = Sys(tokens: Table, requests: map<nat, Phase>, parents: seq<Option<nat>>, families: set<nat>)

  datatype Action =
    | Login(family: nat, expiresAt: Time)
    | ReadForRotation(request: nat, token: nat, now: Time)
    | TryRotate(request: nat, now: Time)
    | Insert(request: nat, expiresAt: Time)
    | Revoke(request: nat, now: Time)
    | ReadForLogout(request: nat, token: nat)
    | Crash(request: nat)
    | Expire(now: Time)

  predicate Can(s: Sys, a: Action) {
    match a
    case Login(family, _) => family !in s.families
    case ReadForRotation(r, _, _) => r !in s.requests
    case TryRotate(r, _) => r in s.requests && s.requests[r].Rotating?
    case Insert(r, _) => r in s.requests && s.requests[r].Inserting?
    case Revoke(r, _) => r in s.requests && s.requests[r].Revoking?
    case ReadForLogout(r, _) => r !in s.requests
    case Crash(r) => r in s.requests
    case Expire(_) => true
  }

  // createRefreshToken, with an id never used before.
  function Create(s: Sys, family: nat, parent: Option<nat>, expiresAt: Time): Sys {
    s.(tokens := s.tokens[|s.parents| := Token(family, expiresAt, None, None)], parents := s.parents + [parent])
  }

  // What RotateRefreshToken does with the row it read: nothing for an unknown, revoked or
  // expired token, revoke the family of a token rotated before, else go on to rotate.
  function AfterRead(tokens: Table, id: nat, now: Time): Option<Phase> {
    if id !in tokens || tokens[id].revokedAt.Some? then None
    else if tokens[id].rotatedAt.Some? then Some(Revoking(tokens[id].family))
    else if tokens[id].expiresAt < now then None
    else Some(Rotating(id, tokens[id].family))
  }

  function Act(s: Sys, a: Action): Sys
    requires Can(s, a)
  {
    match a
    case Login(family, expiresAt) => Create(s, family, None, expiresAt).(families := s.families + {family})
    case ReadForRotation(r, id, now) =>
      var phase := AfterRead(s.tokens, id, now);
      if phase.Some? then s.(requests := s.requests[r := phase.value]) else s
    case TryRotate(r, now) =>
      var Rotating(id, family) := s.requests[r];
      if id in s.tokens && Current(s.tokens[id]) then
        s.(tokens := RotateIfUnrotated(s.tokens, id, now), requests := s.requests[r := Inserting(s.tokens[id].family, id)])
      else s.(requests := s.requests[r := Revoking(family)])
    case Insert(r, expiresAt) =>
      var Inserting(family, parent) := s.requests[r];
      Create(s, family, Some(parent), expiresAt).(requests := s.requests - {r})
    case Revoke(r, now) => s.(tokens := RevokeFamily(s.tokens, s.requests[r].family, now), requests := s.requests - {r})
    case ReadForLogout(r, id) =>
      if id in s.tokens then s.(requests := s.requests[r := Revoking(s.tokens[id].family)]) else s
    case Crash(r) => s.(requests := s.requests - {r})
    case Expire(now) => s.(tokens := DeleteExpired(s.tokens, now))
  }

  const NOBODY := Sys(map[], map[], [], {})

  predicate Next(s: Sys, a: Action, t: Sys) {
    Can(s, a) && t == Act(s, a)
  }

  predicate Run(states: seq<Sys>, actions: seq<Action>) {
    |states| == |actions| + 1 && states[0] == NOBODY && forall k :: 0 <= k < |actions| ==> Next(states[k], actions[k], states[k + 1])
  }

  // -------------------------------------------------------------------- invariants

  // What can still give the family a current token: one that is current, or a rotation
  // that was won and has not inserted yet.
  datatype Claim = Live(token: nat) | InFlight(request: nat)

  predicate Holds(s: Sys, family: nat, c: Claim) {
    match c
    case Live(id) => id in s.tokens && s.tokens[id].family == family && Current(s.tokens[id])
    case InFlight(r) => r in s.requests && s.requests[r].Inserting? && s.requests[r].family == family
  }

  ghost predicate OneClaim(s: Sys) {
    forall family, c, d :: Holds(s, family, c) && Holds(s, family, d) ==> c == d
  }

  // A rotated-from token is spent: not current, and the parent of at most one token or
  // pending insert.
  predicate Spent(s: Sys, id: nat) {
    id < |s.parents| && (id in s.tokens ==> s.tokens[id].rotatedAt.Some?)
  }

  ghost predicate ParentsOk(s: Sys) {
    (forall k :: 0 <= k < |s.parents| && s.parents[k].Some? ==> Spent(s, s.parents[k].value)) &&
    (forall r :: r in s.requests && s.requests[r].Inserting? ==> Spent(s, s.requests[r].parent))
  }

  predicate SameParent(s: Sys, q: nat, r: nat) {
    q in s.requests && r in s.requests && s.requests[q].Inserting? && s.requests[r].Inserting? &&
    s.requests[q].parent == s.requests[r].parent
  }

  ghost predicate OneSuccessor(s: Sys) {
    (forall j, k :: 0 <= j < k < |s.parents| && s.parents[j].Some? ==> s.parents[j] != s.parents[k]) &&
    (forall r, k :: r in s.requests && s.requests[r].Inserting? && 0 <= k < |s.parents| ==>
                      s.parents[k] != Some(s.requests[r].parent)) &&
    (forall q, r :: SameParent(s, q, r) ==> q == r)
  }

  ghost predicate KeysOk(s: Sys) {
    (forall id :: id in s.tokens ==> id < |s.parents| && s.tokens[id].family in s.families) &&
    (forall r :: r in s.requests ==> s.requests[r].family in s.families)
  }

  ghost predicate Valid(s: Sys) {
    KeysOk(s) && OneClaim(s) && ParentsOk(s) && OneSuccessor(s)
  }

  // A claim after a step was a claim before it, except for the two ways to pass it on.
  function Origin(s: Sys, a: Action, c: Claim): Option<Claim>
    requires Can(s, a)
  {
    if a.Login? && c == Live(|s.parents|) then None
    else if a.Insert? && c == Live(|s.parents|) then Some(InFlight(a.request))
    else if a.TryRotate? && c == InFlight(a.request) then Some(Live(s.requests[a.request].token))
    else Some(c)
  }

  lemma ClaimsArePassedOn(s: Sys, a: Action, family: nat, c: Claim)
    requires KeysOk(s) && Can(s, a) && Holds(Act(s, a), family, c)
    ensures Origin(s, a, c).Some? ==> Holds(s, family, Origin(s, a, c).value)
    ensures Origin(s, a, c).None? ==> a.Login? && family == a.family
  {
  }

  lemma StepKeepsOneClaim(s: Sys, a: Action)
    requires KeysOk(s) && OneClaim(s) && Can(s, a)
    ensures OneClaim(Act(s, a))
  {
    var t := Act(s, a);
    forall family, c, d | Holds(t, family, c) && Holds(t, family, d)
      ensures c == d
    {
      ClaimsArePassedOn(s, a, family, c);
      ClaimsArePassedOn(s, a, family, d);
      OriginIsInjective(s, a, family, c, d);
    }
  }

  // Two claims with the same origin are the same; a new family starts with one claim.
  lemma OriginIsInjective(s: Sys, a: Action, family: nat, c: Claim, d: Claim)
    requires KeysOk(s) && OneClaim(s) && Can(s, a)
    requires Holds(Act(s, a), family, c) && Holds(Act(s, a), family, d)
    requires Origin(s, a, c).Some? ==> Holds(s, family, Origin(s, a, c).value)
    requires Origin(s, a, d).Some? ==> Holds(s, family, Origin(s, a, d).value)
    requires Origin(s, a, c).None? || Origin(s, a, d).None? ==> a.Login? && family == a.family
    ensures c == d
  {
    if Origin(s, a, c).Some? && Origin(s, a, d).Some? {
      assert Origin(s, a, c) == Origin(s, a, d);
    }
  }

  lemma StepKeepsKeys(s: Sys, a: Action)
    requires KeysOk(s) && Can(s, a)
    ensures KeysOk(Act(s, a))
  {
  }

  lemma StepKeepsParents(s: Sys, a: Action)
    requires KeysOk(s) && ParentsOk(s) && Can(s, a)
    ensures ParentsOk(Act(s, a))
  {
  }

  // A current token has no successor yet, and none on the way.
  lemma CurrentHasNoSuccessor(s: Sys, id: nat)
    requires ParentsOk(s) && id in s.tokens && Current(s.tokens[id])
    ensures forall k :: 0 <= k < |s.parents| ==> s.parents[k] != Some(id)
    ensures forall r :: r in s.requests && s.requests[r].Inserting? ==> s.requests[r].parent != id
  {
    forall k | 0 <= k < |s.parents|
      ensures s.parents[k] != Some(id)
    {
      assert s.parents[k].Some? ==> Spent(s, s.parents[k].value);
    }
  }

  lemma StepKeepsSuccessors(s: Sys, a: Action)
    requires KeysOk(s) && ParentsOk(s) && OneSuccessor(s) && Can(s, a)
    ensures OneSuccessor(Act(s, a))
  {
    var t := Act(s, a);
    if a.TryRotate? && s.requests[a.request].token in s.tokens && Current(s.tokens[s.requests[a.request].token]) {
      CurrentHasNoSuccessor(s, s.requests[a.request].token);
    }
    forall r, k | r in t.requests && t.requests[r].Inserting? && 0 <= k < |t.parents|
      ensures t.parents[k] != Some(t.requests[r].parent)
    {
      if a.Insert? && k == |s.parents| { assert !SameParent(s, r, a.request); }
    }
    forall q, r | SameParent(t, q, r)
      ensures q == r
    {
      if !(a.TryRotate? && (q == a.request || r == a.request)) { assert SameParent(s, q, r); }
    }
  }

  lemma {:induction false} RunIsValid(states: seq<Sys>, actions: seq<Action>, k: nat)
    requires Run(states, actions) && k < |states|
    ensures Valid(states[k])
  {
    if k > 0 {
      RunIsValid(states, actions, k - 1);
      var s, a := states[k - 1], actions[k - 1];
      assert Next(s, a, states[k - 1 + 1]);
      StepKeepsKeys(s, a);
      StepKeepsOneClaim(s, a);
      StepKeepsParents(s, a);
      StepKeepsSuccessors(s, a);
    }
  }

  // In every interleaving a family has at most one current token, counting a rotation
  // that was won and has not inserted yet; and every token gets at most one successor.
  lemma AtMostOneCurrentToken(states: seq<Sys>, actions: seq<Action>, k: nat, family: nat, c: Claim, d: Claim)
    requires Run(states, actions) && k < |states| && Holds(states[k], family, c) && Holds(states[k], family, d)
    ensures c == d
  {
    RunIsValid(states, actions, k);
  }

  lemma AtMostOneSuccessor(states: seq<Sys>, actions: seq<Action>, k: nat, i: nat, j: nat)
    requires Run(states, actions) && k < |states| && i < j < |states[k].parents| && states[k].parents[i].Some?
    ensures states[k].parents[i] != states[k].parents[j]
  {
    RunIsValid(states, actions, k);
  }

  // ------------------------------------------------------------------ dead families

  ghost predicate Dead(s: Sys, family: nat) {
    family in s.families && forall c :: !Holds(s, family, c)
  }

  lemma StepKeepsDead(s: Sys, a: Action, family: nat)
    requires KeysOk(s) && Can(s, a) && Dead(s, family)
    ensures Dead(Act(s, a), family)
  {
    forall c
      ensures !Holds(Act(s, a), family, c)
    {
      if Holds(Act(s, a), family, c) { ClaimsArePassedOn(s, a, family, c); }
    }
  }

  // A family with neither a current token nor a rotation in flight never gets one again.
  lemma {:induction false} DeadStaysDead(states: seq<Sys>, actions: seq<Action>, k: nat, l: nat, family: nat)
    requires Run(states, actions) && k <= l < |states| && Dead(states[k], family)
    ensures Dead(states[l], family)
    decreases l
  {
    if k < l {
      DeadStaysDead(states, actions, k, l - 1, family);
      RunIsValid(states, actions, l - 1);
      assert Next(states[l - 1], actions[l - 1], states[l - 1 + 1]);
      StepKeepsDead(states[l - 1], actions[l - 1], family);
    }
  }

  predicate RotationInFlight(s: Sys, family: nat) {
    exists r :: r in s.requests && Holds(s, family, InFlight(r))
  }

  // Revoking a family leaves no current token in it, so it ends the family exactly when no
  // rotation of the family is in flight.
  lemma RevokedFamilyIsDeadIff(states: seq<Sys>, actions: seq<Action>, k: nat)
    requires Run(states, actions) && k < |actions| && actions[k].Revoke?
    ensures Next(states[k], actions[k], states[k + 1]) && states[k].requests[actions[k].request].Revoking?
    ensures var family := states[k].requests[actions[k].request].family;
            (forall id :: !Holds(states[k + 1], family, Live(id))) &&
            (Dead(states[k + 1], family) <==> !RotationInFlight(states[k], family))
  {
    RunIsValid(states, actions, k);
    var s, r := states[k], actions[k].request;
    assert Next(s, actions[k], states[k + 1]);
    var t, family := states[k + 1], s.requests[r].family;
    forall id
      ensures !Holds(t, family, Live(id))
    {
    }
    if RotationInFlight(s, family) {
      var q :| q in s.requests && Holds(s, family, InFlight(q));
      assert Holds(t, family, InFlight(q));
    } else {
      forall c
        ensures !Holds(t, family, c)
      {
        if c.InFlight? && Holds(t, family, c) { assert Holds(s, family, InFlight(c.request)); }
      }
    }
  }

  lemma Extend(states: seq<Sys>, actions: seq<Action>, a: Action) returns (more: seq<Sys>, acts: seq<Action>)
    requires Run(states, actions) && Can(states[|states| - 1], a)
    ensures Run(more, acts) && more == states + [Act(states[|states| - 1], a)] && acts == actions + [a]
  {
    more, acts := states + [Act(states[|states| - 1], a)], actions + [a];
    forall k | 0 <= k < |acts|
      ensures Next(more[k], acts[k], more[k + 1])
    {
      if k < |actions| { assert Next(states[k], actions[k], states[k + 1]); }
    }
  }

  // ---------------------------------------------------------------- replay and logout

  // A rotation request that reads a token rotated before, and not revoked.
  predicate Replays(s: Sys, a: Action) {
    a.ReadForRotation? && a.token in s.tokens && s.tokens[a.token].rotatedAt.Some? && s.tokens[a.token].revokedAt.None?
  }

  // A logout that finds its token.
  predicate LogsOut(s: Sys, a: Action) {
    a.ReadForLogout? && a.token in s.tokens
  }

  // The next statement of a request.
  predicate IsStatementOf(a: Action, r: nat) {
    (a.TryRotate? || a.Insert? || a.Revoke? || a.Crash?) && a.request == r
  }

  lemma ReadLeavesRevoke(s: Sys, a: Action)
    requires Can(s, a) && (Replays(s, a) || LogsOut(s, a))
    ensures a.request in Act(s, a).requests && Act(s, a).requests[a.request] == Revoking(s.tokens[a.token].family)
    ensures Act(s, a).tokens == s.tokens
  {
  }

  lemma OthersLeaveRequest(s: Sys, a: Action, r: nat)
    requires Can(s, a) && r in s.requests && !IsStatementOf(a, r)
    ensures r in Act(s, a).requests && Act(s, a).requests[r] == s.requests[r]
  {
  }

  // The revocation stays pending whatever other requests do, until the request's own next
  // statement.
  lemma {:induction false} RevokeStaysPending(states: seq<Sys>, actions: seq<Action>, k: nat, l: nat)
    requires Run(states, actions) && k < l < |states| && (Replays(states[k], actions[k]) || LogsOut(states[k], actions[k]))
    requires forall j :: k < j < l ==> !IsStatementOf(actions[j], actions[k].request)
    ensures var r := actions[k].request;
            r in states[l].requests && states[l].requests[r] == Revoking(states[k].tokens[actions[k].token].family)
    decreases l
  {
    assert Next(states[k], actions[k], states[k + 1]);
    if l == k + 1 {
      ReadLeavesRevoke(states[k], actions[k]);
    } else {
      RevokeStaysPending(states, actions, k, l - 1);
      assert Next(states[l - 1], actions[l - 1], states[l - 1 + 1]);
      OthersLeaveRequest(states[l - 1], actions[l - 1], actions[k].request);
    }
  }

  // Reuse detection and logout, in every interleaving: the next statement of a request that
  // replayed a rotated token, or logged out, is the revocation of that token's family, or
  // the request crashes. The revocation leaves no current token in the family and every
  // token of it revoked, and ends the family when no rotation of it is in flight.
  lemma ReplayRevokesFamily(states: seq<Sys>, actions: seq<Action>, k: nat, l: nat)
    requires Run(states, actions) && k < l < |actions| && (Replays(states[k], actions[k]) || LogsOut(states[k], actions[k]))
    requires forall j :: k < j < l ==> !IsStatementOf(actions[j], actions[k].request)
    requires IsStatementOf(actions[l], actions[k].request)
    ensures actions[l].Revoke? || actions[l].Crash?
    ensures var family, t := states[k].tokens[actions[k].token].family, states[l + 1];
            actions[l].Revoke? ==>
              (forall id :: id in t.tokens && t.tokens[id].family == family ==> t.tokens[id].revokedAt.Some?) &&
              (forall id :: !Holds(t, family, Live(id))) && (Dead(t, family) <==> !RotationInFlight(states[l], family))
  {
    RevokeStaysPending(states, actions, k, l);
    assert Next(states[l], actions[l], states[l + 1]);
    if actions[l].Revoke? { RevokedFamilyIsDeadIff(states, actions, l); }
  }

  // Reading an unknown, revoked or expired token for rotation does nothing; reading a
  // current one that has not expired leaves a rotation of it pending.
  lemma OtherReads(s: Sys, r: nat, id: nat, now: Time)
    requires Can(s, ReadForRotation(r, id, now)) && !Replays(s, ReadForRotation(r, id, now))
    ensures id !in s.tokens || s.tokens[id].revokedAt.Some? || s.tokens[id].expiresAt < now ==> Act(s, ReadForRotation(r, id, now)) == s
    ensures id in s.tokens && Current(s.tokens[id]) && s.tokens[id].expiresAt >= now ==>
              Act(s, ReadForRotation(r, id, now)) == s.(requests := s.requests[r := Rotating(id, s.tokens[id].family)])
  {
  }

  // A concrete run: a logout revokes the family between another request's conditional
  // update and its insert, and the family has a current token again.
  lemma RevokeCanBeOvertaken() returns (states: seq<Sys>, actions: seq<Action>)
    ensures Run(states, actions) && |actions| == 6 && actions[4].Revoke?
    ensures 1 in states[4].requests && states[4].requests[1] == Revoking(0)
    ensures Holds(states[6], 0, Live(1))
  {
    states, actions := [NOBODY], [];
    states, actions := Extend(states, actions, Login(0, 100));
    states, actions := Extend(states, actions, ReadForRotation(0, 0, 10));
    states, actions := Extend(states, actions, ReadForLogout(1, 0));
    states, actions := Extend(states, actions, TryRotate(0, 10));
    states, actions := Extend(states, actions, Revoke(1, 10));
    states, actions := Extend(states, actions, Insert(0, 110));
  }

  // ---------------------------------------------------------------------- the store

  datatype SessionError = InvalidToken | TokenReused

  // What any number of statements can do to the table: rows may go, new rows have new ids,
  // and a row that stays keeps its family, its expiry and its stamps.
  ghost predicate Later(a: Table, n: nat, b: Table, m: nat) {
    n <= m && (forall id :: id in b && id !in a ==> n <= id) &&
    (forall id :: id in a && id in b ==> KeepsStamps(a[id], b[id]))
  }

  predicate KeepsStamps(t: Token, u: Token) {
    t.family == u.family && t.expiresAt == u.expiresAt &&
    (t.rotatedAt.Some? ==> u.rotatedAt == t.rotatedAt) && (t.revokedAt.Some? ==> u.revokedAt == t.revokedAt)
  }

  // Every action of the protocol does no more than that.
  lemma ActionsAreLater(s: Sys, a: Action)
    requires KeysOk(s) && Can(s, a)
    ensures Later(s.tokens, |s.parents|, Act(s, a).tokens, |Act(s, a).parents|)
  {
  }

  lemma LaterTwice(a: Table, n: nat, b: Table, m: nat, c: Table, l: nat)
    requires Later(a, n, b, m) && Later(b, m, c, l) && forall id :: id in a ==> id < n
    ensures Later(a, n, c, l)
  {
    forall id | id in a && id in c
      ensures id in b && KeepsStamps(a[id], c[id])
    {
      assert id in b;
    }
  }

  // What RotateRefreshToken returns and leaves, from the table `read` by its SELECT, the
  // one that its conditional UPDATE met and the one its last statement changed.
  predicate RotationOutcome(id: nat, now: Time, ttl: Time, read: Table, contested: Table, before: Table, nextId: nat,
                            after: Table, r: Result<nat, SessionError>) {
    match AfterRead(read, id, now)
    case None => r == Err(InvalidToken) && after == before
    case Some(Revoking(family)) => r == Err(TokenReused) && after == RevokeFamily(before, family, now)
    case Some(Inserting(_, _)) => false
    case Some(Rotating(_, family)) =>
      if id in contested && Current(contested[id]) then
        r == Ok(nextId) && after == before[nextId := Token(contested[id].family, now + ttl, None, None)]
      else r == Err(TokenReused) && after == RevokeFamily(before, family, now)
  }

  // A rotation that goes through is three actions of the protocol, with any actions of
  // others in between.
  lemma WonRotationIsThreeActions(s: Sys, contested: Sys, before: Sys, q: nat, id: nat, now: Time, ttl: Time)
    requires Can(s, ReadForRotation(q, id, now)) && AfterRead(s.tokens, id, now).Some? && AfterRead(s.tokens, id, now).value.Rotating?
    requires q in contested.requests && contested.requests[q] == AfterRead(s.tokens, id, now).value
    requires id in contested.tokens && Current(contested.tokens[id])
    requires var t := Act(contested, TryRotate(q, now)); q in before.requests && before.requests[q] == t.requests[q]
    ensures var read := Act(s, ReadForRotation(q, id, now)); q in read.requests && read.requests[q] == contested.requests[q]
    ensures Act(contested, TryRotate(q, now)).tokens == RotateIfUnrotated(contested.tokens, id, now)
    ensures Can(before, Insert(q, now + ttl))
    ensures RotationOutcome(id, now, ttl, s.tokens, contested.tokens, before.tokens, |before.parents|,
                            Act(before, Insert(q, now + ttl)).tokens, Ok(|before.parents|))
  {
  }

  // So is one that loses the race, and revokes the family.
  lemma LostRotationIsThreeActions(s: Sys, contested: Sys, before: Sys, q: nat, id: nat, now: Time, ttl: Time)
    requires Can(s, ReadForRotation(q, id, now)) && AfterRead(s.tokens, id, now).Some? && AfterRead(s.tokens, id, now).value.Rotating?
    requires q in contested.requests && contested.requests[q] == AfterRead(s.tokens, id, now).value
    requires !(id in contested.tokens && Current(contested.tokens[id]))
    requires var t := Act(contested, TryRotate(q, now)); q in before.requests && before.requests[q] == t.requests[q]
    ensures Act(contested, TryRotate(q, now)).tokens == RotateIfUnrotated(contested.tokens, id, now)
    ensures Can(before, Revoke(q, now))
    ensures RotationOutcome(id, now, ttl, s.tokens, contested.tokens, before.tokens, |before.parents|,
                            Act(before, Revoke(q, now)).tokens, Err(TokenReused))
  {
  }

  // A token rotated before is two actions, and an unusable one a single action that
  // changes nothing.
  lemma OtherReadsAreActions(s: Sys, before: Sys, q: nat, id: nat, now: Time, ttl: Time)
    requires Can(s, ReadForRotation(q, id, now))
    ensures AfterRead(s.tokens, id, now).None? ==>
              (Act(s, ReadForRotation(q, id, now)) == s &&
               RotationOutcome(id, now, ttl, s.tokens, s.tokens, s.tokens, |s.parents|, s.tokens, Err(InvalidToken)))
    ensures AfterRead(s.tokens, id, now).Some? && AfterRead(s.tokens, id, now).value.Revoking? &&
            q in before.requests && before.requests[q] == AfterRead(s.tokens, id, now).value ==>
              (Can(before, Revoke(q, now)) &&
               RotationOutcome(id, now, ttl, s.tokens, before.tokens, before.tokens, |before.parents|,
                               Act(before, Revoke(q, now)).tokens, Err(TokenReused)))
  {
  }

  // The token table. A token is named by its id; the hash that finds it is unique.
  class TokenStore {
    var tokens: Table
    var nextId: nat

    // Stored ids have been handed out before.
    ghost predicate Valid()
      reads this
    {
      forall id :: id in tokens ==> id < nextId
    }

    constructor ()
      ensures Valid() && tokens == map[] && nextId == 0
    {
      tokens, nextId := map[], 0;
    }

    // What other requests do between two statements of this one.
    method OtherRequests()
      requires Valid()
      modifies this
      ensures Valid() && Later(old(tokens), old(nextId), tokens, nextId)
    {
    }

    // A current token under an id that no token ever had.
    method CreateRefreshToken(family: nat, expiresAt: Time) returns (id: nat)
      requires Valid()
      modifies this
      ensures Valid() && id == old(nextId) && nextId == id + 1 && id !in old(tokens)
      ensures tokens == old(tokens)[id := Token(family, expiresAt, None, None)] && Current(tokens[id])
      ensures Later(old(tokens), old(nextId), tokens, nextId)
    {
      id, nextId := nextId, nextId + 1;
      tokens := tokens[id := Token(family, expiresAt, None, None)];
    }

    // The token after the update, or nothing when the update matched no row.
    method RotateRefreshTokenIfUnrotated(id: nat, now: Time) returns (rotated: Option<Token>)
      requires Valid()
      modifies this`tokens
      ensures Valid() && tokens == RotateIfUnrotated(old(tokens), id, now)
      ensures rotated == if id in old(tokens) && Current(old(tokens)[id]) then Some(tokens[id]) else None
      ensures rotated.Some? ==> tokens[id] == old(tokens)[id].(rotatedAt := Some(now))
      ensures rotated.None? ==> tokens == old(tokens)
      ensures forall other :: other in tokens && other != id ==> other in old(tokens) && tokens[other] == old(tokens)[other]
      ensures Later(old(tokens), nextId, tokens, nextId)
    {
      rotated := None;
      if id in tokens && Current(tokens[id]) {
        tokens := tokens[id := tokens[id].(rotatedAt := Some(now))];
        rotated := Some(tokens[id]);
      }
    }

    // Afterwards no token of the family is current: each one not revoked before is revoked
    // now. No other token changes, and none comes or goes.
    method RevokeRefreshTokenFamily(family: nat, now: Time)
      requires Valid()
      modifies this`tokens
      ensures Valid() && tokens.Keys == old(tokens).Keys
      ensures forall id :: id in tokens && tokens[id].family == family ==> !Current(tokens[id]) && tokens[id].revokedAt.Some?
      ensures forall id :: id in tokens && (old(tokens)[id].family != family || old(tokens)[id].revokedAt.Some?) ==>
                             tokens[id] == old(tokens)[id]
      ensures forall id :: id in tokens && old(tokens)[id].family == family && old(tokens)[id].revokedAt.None? ==>
                             tokens[id] == old(tokens)[id].(revokedAt := Some(now))
      ensures Later(old(tokens), nextId, tokens, nextId)
      ensures tokens == RevokeFamily(old(tokens), family, now)
    {
      tokens := RevokeFamily(tokens, family, now);
    }

    // Exactly the tokens whose expiry has passed go; the others stay as they are.
    method DeleteExpiredRefreshTokens(now: Time)
      requires Valid()
      modifies this`tokens
      ensures Valid() && forall id :: id in tokens <==> id in old(tokens) && !(old(tokens)[id].expiresAt < now)
      ensures forall id :: id in tokens ==> tokens[id] == old(tokens)[id]
      ensures Later(old(tokens), nextId, tokens, nextId)
    {
      tokens := DeleteExpired(tokens, now);
    }

    // A login's first token, or a rotation's next one: current, with the full lifetime.
    method IssueRefreshToken(family: nat, now: Time, ttl: Time) returns (id: nat)
      requires Valid()
      modifies this
      ensures Valid() && id == old(nextId) && nextId == id + 1 && id !in old(tokens)
      ensures tokens == old(tokens)[id := Token(family, now + ttl, None, None)]
      ensures Later(old(tokens), old(nextId), tokens, nextId)
    {
      id := CreateRefreshToken(family, now + ttl);
    }

    // Rotates a token while other requests interleave with its statements. `read` is the
    // table that its SELECT saw, `contested` the one its conditional UPDATE met and
    // `before` the one its last statement changed. An unknown, revoked or expired token is
    // refused and changes nothing. A token rotated before is reuse: every token of its
    // family is revoked. A usable one is rotated if it is still current at the UPDATE, and
    // then stays stamped for as long as it is stored; else it was lost to another request,
    // which is reuse too.
    method RotateRefreshToken(id: nat, now: Time, ttl: Time)
      returns (r: Result<nat, SessionError>, ghost read: Table, ghost contested: Table, ghost before: Table, ghost beforeId: nat)
      requires Valid()
      modifies this
      ensures Valid() && read == old(tokens)
      ensures RotationOutcome(id, now, ttl, read, contested, before, beforeId, tokens, r)
      ensures id !in read || read[id].revokedAt.Some? || (read[id].rotatedAt.None? && read[id].expiresAt < now) ==>
                r == Err(InvalidToken) && tokens == old(tokens) && nextId == old(nextId)
      ensures id in read && read[id].revokedAt.None? && read[id].rotatedAt.Some? ==>
                r == Err(TokenReused) && tokens.Keys == before.Keys &&
                (forall other :: other in tokens && tokens[other].family == read[id].family ==> tokens[other].revokedAt.Some?) &&
                (forall other :: other in tokens && before[other].family != read[id].family ==> tokens[other] == before[other])
      ensures id in read && Current(read[id]) && read[id].expiresAt >= now ==>
                (r.Ok? <==> id in contested && contested[id].rotatedAt.None? && contested[id].revokedAt.None?)
      ensures r.Err? && id in read && Current(read[id]) && read[id].expiresAt >= now ==>
                r == Err(TokenReused) && tokens.Keys == before.Keys &&
                (forall other :: other in tokens && tokens[other].family == read[id].family ==> tokens[other].revokedAt.Some?) &&
                (forall other :: other in tokens && before[other].family != read[id].family ==> tokens[other] == before[other])
      ensures r.Ok? ==> id in read && tokens == before[r.value := Token(read[id].family, now + ttl, None, None)]
      ensures Later(read, old(nextId), contested, beforeId) && Later(old(tokens), old(nextId), tokens, nextId)
      ensures AfterRead(read, id, now).None? ==> tokens == old(tokens)
      ensures r.Ok? ==> r.value == beforeId >= old(nextId) && r.value !in before && r.value in tokens && nextId == beforeId + 1
      ensures r.Ok? && id in tokens ==> tokens[id].rotatedAt == Some(now)
    {
      read, contested, before, beforeId := tokens, tokens, tokens, nextId;
      if id !in tokens {
        return Err(InvalidToken), read, contested, before, beforeId;
      }
      var row := tokens[id];
      if row.revokedAt.Some? {
        return Err(InvalidToken), read, contested, before, beforeId;
      } else if row.rotatedAt.Some? {
        OtherRequests();
        before, beforeId := tokens, nextId;
        RevokeRefreshTokenFamily(row.family, now);
        LaterTwice(read, old(nextId), before, beforeId, tokens, nextId);
        return Err(TokenReused), read, contested, before, beforeId;
      } else if row.expiresAt < now {
        return Err(InvalidToken), read, contested, before, beforeId;
      }
      OtherRequests();
      contested := tokens;
      ghost var contestedId := nextId;
      var rotated := RotateRefreshTokenIfUnrotated(id, now);
      ghost var stamped := tokens;
      LaterTwice(read, old(nextId), contested, contestedId, stamped, nextId);
      OtherRequests();
      before, beforeId := tokens, nextId;
      LaterTwice(read, old(nextId), stamped, contestedId, before, beforeId);
      if rotated.None? {
        RevokeRefreshTokenFamily(row.family, now);
        LaterTwice(read, old(nextId), before, beforeId, tokens, nextId);
        return Err(TokenReused), read, contested, before, beforeId;
      }
      var next := IssueRefreshToken(rotated.value.family, now, ttl);
      LaterTwice(read, old(nextId), before, beforeId, tokens, nextId);
      r := Ok(next);
    }

    // Logout: idempotent when the token is gone.
    method RevokeFamilyByToken(id: nat, now: Time) returns (ghost before: Table)
      requires Valid()
      modifies this
      ensures Valid() && Later(old(tokens), old(nextId), tokens, nextId)
      ensures id !in old(tokens) ==> tokens == old(tokens)
      ensures id in old(tokens) ==>
                tokens == RevokeFamily(before, old(tokens)[id].family, now) &&
                forall other :: other in tokens && tokens[other].family == old(tokens)[id].family ==> !Current(tokens[other])
    {
      before := tokens;
      if id in tokens {
        var family := tokens[id].family;
        OtherRequests();
        before := tokens;
        ghost var beforeId := nextId;
        RevokeRefreshTokenFamily(family, now);
        LaterTwice(old(tokens), old(nextId), before, beforeId, tokens, nextId);
      }
    }
  }
}
