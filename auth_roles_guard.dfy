/** `AuthRolesGuard`: admits a request when the route declares roles, the
    header carries a Bearer token that verifies, and the user it names holds
    one of those roles according to the users table. */
module RoleGuard {
  import opened Common
  import opened Tables
  import opened Users
  import opened Headers

  /** The header has a non-empty token and the scheme is exactly `Bearer`. */
  predicate BearerPresent(authorization: Option<string>) {
    Truthy(TokenOf(authorization)) && SchemeOf(authorization) == Some("Bearer")
  }

  /** The token verifies, its user still exists, and that user's stored role
      is among the allowed ones. */
  predicate Accepted(roles: seq<Role>, token: string, verify: string -> Option<Principal>, users: map<Id, User>) {
    verify(token).Some? && verify(token).value.id in users && users[verify(token).value.id].role in roles
  }

  /** `canActivate`. Whatever goes wrong after the header check (a token
      that does not verify, a user that is gone, a role not allowed) ends in
      the same `InvalidToken` refusal. */
  function RolesDecision(roles: Option<seq<Role>>, authorization: Option<string>, verify: string -> Option<Principal>,
                         users: map<Id, User>): (v: Verdict)
    ensures v == Deny <==> roles.None? || roles.value == []
    ensures v == Refuse(NoTokenProvided) <==>
      roles.Some? && roles.value != [] && !BearerPresent(authorization)
    ensures v.Allow? <==>
      roles.Some? && roles.value != [] && BearerPresent(authorization)
      && Accepted(roles.value, TokenOf(authorization).value, verify, users)
    ensures v == Refuse(InvalidToken) <==>
      roles.Some? && roles.value != [] && BearerPresent(authorization)
      && !Accepted(roles.value, TokenOf(authorization).value, verify, users)
    ensures v.Allow? ==>
      var id := verify(TokenOf(authorization).value).value.id;
      v.current == LoadedUser(id, users[id])
  {
    if roles.None? || roles.value == [] then Deny
    else if !BearerPresent(authorization) then Refuse(NoTokenProvided)
    else
      var token := TokenOf(authorization).value;
      match verify(token)
      case None => Refuse(InvalidToken)
      case Some(payload) =>
        if payload.id !in users then Refuse(InvalidToken)
        else if users[payload.id].role !in roles.value then Refuse(InvalidToken)
        else Allow(LoadedUser(payload.id, users[payload.id]))
  }

  /** A well-formed `Bearer <token>` header whose token verifies to an
      existing user with an allowed role is admitted with that user. */
  lemma BearerTokenAdmitted(roles: seq<Role>, token: string, verify: string -> Option<Principal>,
                            users: map<Id, User>)
    requires token != [] && NoSpace(token)
    requires verify(token).Some? && verify(token).value.id in users
    requires users[verify(token).value.id].role in roles
    ensures var id := verify(token).value.id;
      RolesDecision(Some(roles), Some("Bearer " + token), verify, users) == Allow(LoadedUser(id, users[id]))
  {
    BearerHeader(token);
  }

  /** The role is read from the users table, not from the token: a token
      signed while the user was an administrator no longer opens an
      administrators-only route once the stored role is `User`. */
  lemma StoredRoleDecides(token: string, verify: string -> Option<Principal>, users: map<Id, User>)
    requires token != [] && NoSpace(token)
    requires verify(token).Some? && verify(token).value.role == Admin
    requires verify(token).value.id in users && users[verify(token).value.id].role == Role.User
    ensures RolesDecision(Some([Admin]), Some("Bearer " + token), verify, users) == Refuse(InvalidToken)
  {
    BearerHeader(token);
  }

  class AuthRolesGuard {
    const users: Repository<User>

    constructor (users: Repository<User>)
      ensures this.users == users
    {
      this.users := users;
    }

    /** `roles` is the route's roles metadata, `verify` the signature check
      with the access-token secret. */
    method CanActivate(roles: Option<seq<Role>>, request: Request, verify: string -> Option<Principal>)
      returns (v: Verdict)
      modifies request
      ensures v == RolesDecision(roles, request.authorization, verify, users.rows)
      ensures request.currentUser == if v.Allow? then Some(v.current) else old(request.currentUser)
    {
      if roles.None? || roles.value == [] {
        return Deny;
      }
      var scheme := SchemeOf(request.authorization);
      var token := TokenOf(request.authorization);
      if !Truthy(token) || scheme != Some("Bearer") {
        return Refuse(NoTokenProvided);
      }
      var payload := verify(token.value);
      if payload.None? {
        return Refuse(InvalidToken);
      }
      var id := payload.value.id;
      if id !in users.rows {
        return Refuse(InvalidToken);
      }
      var user := users.rows[id];
      if user.role !in roles.value {
        return Refuse(InvalidToken);
      }
      request.currentUser := Some(LoadedUser(id, user));
      v := Allow(LoadedUser(id, user));
    }
  }
}
