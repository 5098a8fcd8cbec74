/** `AuthGuard`: admits a request whose token verifies and attaches the
    token's payload, without any role check. Its header test is the reverse
    of a strict Bearer check: only a present token under another scheme is
    refused outright; a missing token goes on to verification. */
module TokenGuard {
  import opened Common
  import opened Headers
  import RoleGuard

  /** The branch that goes on to verification: no usable token, or scheme
      `Bearer`. */
  predicate GoesToVerification(authorization: Option<string>) {
    !Truthy(TokenOf(authorization)) || SchemeOf(authorization) == Some("Bearer")
  }

  /** `canActivate`. `verify` is the signature check with the access-token
      secret. An absent or empty token is never checked against it: the JWT
      library rejects it outright ("jwt must be provided"), which the guard
      reports as an invalid token. */
  function AuthDecision(authorization: Option<string>, verify: string -> Option<Principal>): (v: Verdict)
    ensures v != Deny
    ensures v == Refuse(NoTokenProvided) <==> !GoesToVerification(authorization)
    ensures v.Allow? <==>
      Truthy(TokenOf(authorization)) && SchemeOf(authorization) == Some("Bearer")
      && verify(TokenOf(authorization).value).Some?
    ensures v.Allow? ==> v.current == TokenPayload(verify(TokenOf(authorization).value).value)
    ensures v == Refuse(InvalidToken) <==> GoesToVerification(authorization) && !v.Allow?
    ensures !Truthy(TokenOf(authorization)) ==> v == Refuse(InvalidToken)
  {
    if GoesToVerification(authorization) then
      var token := TokenOf(authorization);
      if !Truthy(token) then Refuse(InvalidToken)
      else
        match verify(token.value)
        case None => Refuse(InvalidToken)
        case Some(payload) => Allow(TokenPayload(payload))
    else Refuse(NoTokenProvided)
  }

  /** A header made of a single word, whatever the scheme, is not refused
      for its scheme: it goes to verification as a missing token and fails
      there. The role guard refuses the same header as carrying no token. */
  lemma SchemeOnlyHeaderIsVerified(word: string, verify: string -> Option<Principal>, roles: seq<Role>,
                                   users: map<Id, Users.User>)
    requires NoSpace(word) && roles != []
    ensures GoesToVerification(Some(word))
    ensures AuthDecision(Some(word), verify) == Refuse(InvalidToken)
    ensures RoleGuard.RolesDecision(Some(roles), Some(word), verify, users) == Refuse(NoTokenProvided)
  {
    SplitWord(word, []);
    assert word + [] == word;
  }

  /** With a well-formed `Bearer <token>` header the guard admits exactly
      when the token verifies, attaching its payload. */
  lemma BearerTokenVerified(token: string, verify: string -> Option<Principal>)
    requires token != [] && NoSpace(token)
    ensures AuthDecision(Some("Bearer " + token), verify) ==
      if verify(token).Some? then Allow(TokenPayload(verify(token).value)) else Refuse(InvalidToken)
  {
    BearerHeader(token);
  }

  class AuthGuard {
    method CanActivate(request: Request, verify: string -> Option<Principal>) returns (v: Verdict)
      modifies request
      ensures v == AuthDecision(request.authorization, verify)
      ensures request.currentUser == if v.Allow? then Some(v.current) else old(request.currentUser)
    {
      var scheme := SchemeOf(request.authorization);
      var token := TokenOf(request.authorization);
      if !Truthy(token) || scheme == Some("Bearer") {
        if !Truthy(token) {
          return Refuse(InvalidToken);
        }
        var payload := verify(token.value);
        if payload.None? {
          return Refuse(InvalidToken);
        }
        request.currentUser := Some(TokenPayload(payload.value));
      } else {
        return Refuse(NoTokenProvided);
      }
      v := Allow(request.currentUser.value);
    }
  }
}
