/** The `Authorization` header as both guards read it, and the request
    object they attach the caller to. */
module Headers {
  import opened Common
  import Users

  /** JavaScript `s.split(' ')`: the pieces between single spaces, empty
      pieces included, so there is always at least one. */
  function Split(s: string): (parts: seq<string>)
    ensures |parts| >= 1
  {
    if s == [] then [[]]
    else
      var rest := Split(s[1..]);
      if s[0] == ' ' then [[]] + rest
      else [[s[0]] + rest[0]] + rest[1..]
  }

  /** `parts.join(' ')`. */
  function Join(parts: seq<string>): string
    requires |parts| >= 1
  {
    if |parts| == 1 then parts[0] else parts[0] + " " + Join(parts[1..])
  }

  predicate NoSpace(s: string) {
    forall i :: 0 <= i < |s| ==> s[i] != ' '
  }

  lemma {:induction false} SplitHasNoSpaces(s: string)
    ensures forall k :: 0 <= k < |Split(s)| ==> NoSpace(Split(s)[k])
  {
    if s != [] {
      SplitHasNoSpaces(s[1..]);
    }
  }

  /** Joining the pieces gives back the header. */
  lemma {:induction false} JoinSplit(s: string)
    ensures Join(Split(s)) == s
  {
    if s != [] {
      JoinSplit(s[1..]);
      var rest := Split(s[1..]);
      if s[0] == ' ' {
        assert Split(s)[1..] == rest;
      } else {
        if |rest| > 1 {
          assert Split(s)[1..] == rest[1..];
          assert Join(rest) == rest[0] + " " + Join(rest[1..]);
        }
      }
    }
  }

  /** Splitting a join of space-free pieces gives back the pieces. */
  lemma {:induction false} SplitJoin(parts: seq<string>)
    requires |parts| >= 1
    requires forall k :: 0 <= k < |parts| ==> NoSpace(parts[k])
    ensures Split(Join(parts)) == parts
  {
    if |parts| == 1 {
      SplitWord(parts[0], []);
      assert parts[0] + [] == parts[0];
      assert Split([]) == [[]];
      assert parts == [parts[0]];
    } else {
      SplitJoin(parts[1..]);
      var tail := [' '] + Join(parts[1..]);
      SplitWord(parts[0], tail);
      assert tail[1..] == Join(parts[1..]);
      assert Split(tail) == [[]] + parts[1..];
      assert Join(parts) == parts[0] + tail;
      assert parts[0] + Split(tail)[0] == parts[0];
      assert parts == [parts[0]] + parts[1..];
    }
  }

  /** A space-free word in front of `rest` extends the first piece of `rest`. */
  lemma {:induction false} SplitWord(w: string, rest: string)
    requires NoSpace(w)
    ensures Split(w + rest) == [w + Split(rest)[0]] + Split(rest)[1..]
  {
    if w != [] {
      SplitWord(w[1..], rest);
      assert (w + rest)[1..] == w[1..] + rest;
      assert [w[0]] + (w[1..] + Split(rest)[0]) == w + Split(rest)[0];
    } else {
      assert w + rest == rest;
      assert w + Split(rest)[0] == Split(rest)[0];
      assert Split(rest) == [Split(rest)[0]] + Split(rest)[1..];
    }
  }

  /** The first piece is the longest space-free prefix: the text up to the
      first space, or all of it. The remaining pieces split what follows
      that space. */
  lemma {:induction false} SplitFirst(s: string)
    ensures Split(s)[0] <= s && NoSpace(Split(s)[0])
    ensures |Split(s)| >= 2 <==> |Split(s)[0]| < |s|
    ensures |Split(s)[0]| < |s| ==>
      s[|Split(s)[0]|] == ' ' && Split(s)[1..] == Split(s[|Split(s)[0]| + 1..])
  {
    if s != [] && s[0] != ' ' {
      SplitFirst(s[1..]);
      var w := Split(s[1..])[0];
      assert Split(s)[0] == [s[0]] + w;
      if |w| < |s[1..]| {
        assert s[1..][|w| + 1..] == s[|w| + 2..];
      }
    } else if s != [] {
      assert s[0..] == s;
    }
  }

  /** `const [type, token] = authorization?.split(' ') ?? []`: `type` is the
      header up to its first space (all of it when there is none), and
      `undefined` without a header. */
  function SchemeOf(authorization: Option<string>): (scheme: Option<string>)
    ensures scheme.Some? <==> authorization.Some?
    ensures scheme.Some? ==>
      NoSpace(scheme.value) && scheme.value <= authorization.value
      && (|scheme.value| == |authorization.value| || authorization.value[|scheme.value|] == ' ')
  {
    if authorization.None? then None
    else
      SplitFirst(authorization.value);
      Some(Split(authorization.value)[0])
  }

  /** `token` is present exactly when the header holds a space; it is the
      text after the first space, up to the next space or the end. */
  function TokenOf(authorization: Option<string>): (token: Option<string>)
    ensures token.Some? <==> authorization.Some? && ' ' in authorization.value
    ensures token.Some? ==>
      var from := |SchemeOf(authorization).value| + 1;
      from <= |authorization.value| && NoSpace(token.value) && token.value <= authorization.value[from..]
      && (from + |token.value| == |authorization.value| || authorization.value[from + |token.value|] == ' ')
  {
    if authorization.None? then None
    else
      var s := authorization.value;
      var parts := Split(s);
      SplitFirst(s);
      if |parts| >= 2 then
        SplitFirst(s[|parts[0]| + 1..]);
        Some(parts[1])
      else None
  }

  /** `Bearer <token>` with a non-empty, space-free token is read as scheme
      `Bearer` and that token. */
  lemma BearerHeader(token: string)
    requires NoSpace(token)
    ensures SchemeOf(Some("Bearer " + token)) == Some("Bearer")
    ensures TokenOf(Some("Bearer " + token)) == Some(token)
  {
    var parts := ["Bearer", token];
    assert NoSpace(parts[0]);
    SplitJoin(parts);
    assert Join(parts) == "Bearer " + token;
  }

  /** What a guard stores under the current-user key: the role guard the
      user row it loaded, the plain guard the verified token payload. */
  datatype CurrentUser = LoadedUser(id: Id, user: Users.User) | TokenPayload(payload: Principal)

  /** The HTTP request: its `Authorization` header and the current-user slot
      the guards fill in. */
  class Request {
    const authorization: Option<string>
    var currentUser: Option<CurrentUser>

    constructor (authorization: Option<string>)
      ensures this.authorization == authorization && currentUser.None?
    {
      this.authorization := authorization;
      currentUser := None;
    }
  }

  /** How a guard answers: `Deny` is a plain `false` (the framework's 403),
      `Refuse` an `UnauthorizedException` with one of two messages, `Allow`
      a `true` after the caller was attached. */
  datatype Refusal = NoTokenProvided | InvalidToken

  datatype Verdict = Deny | Refuse(reason: Refusal) | Allow(current: CurrentUser)
}
