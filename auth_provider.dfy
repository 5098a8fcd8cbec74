/** `AuthProvider`: registration, login and the password-reset flow. The
    bcrypt hash, the signed tokens and the random reset token are values the
    caller supplies; the password check is the function `matches`, true when
    the given password hashes to the stored one. */
module Auth {
  import opened Common
  import opened Tables
  import opened Users

  datatype RegisterUserDto = RegisterUserDto(username: string, email: string)

  /** The account `register` ends with: a plain `User`, unverified, holding
      the refresh token it hands out. */
  function RegisterOutcome(users: map<Id, User>, dto: RegisterUserDto, hashed: string, refresh: string, now: int)
    : (r: Result<User>)
    ensures r == Err(BadRequest) <==> EmailTaken(users, dto.email)
    ensures r.Ok? <==> !EmailTaken(users, dto.email)
    ensures r.Ok? ==>
      r.value.email == dto.email && r.value.username == Some(dto.username)
      && r.value.password == hashed && r.value.role == Role.User && !r.value.isAccountVerified
    ensures r.Ok? ==> r.value.refreshToken == Some(refresh)
    ensures r.Ok? ==>
      r.value.verificationToken.None? && r.value.resetPasswordToken.None? && r.value.profileImage.None?
      && r.value.createdAt == now
  {
    if EmailTaken(users, dto.email) then Err(BadRequest)
    else Ok(User.User(Some(dto.username), dto.email, hashed, Role.User, false, None, None, Some(refresh), None, now))
  }

  /** `login`: an unknown email and a wrong password give the same
      `BadRequest`; success stores the new refresh token. */
  function LoginOutcome(users: map<Id, User>, email: string, matches: string -> bool, refresh: string)
    : (r: Result<User>)
    requires EmailsUnique(users)
    ensures r.Err? ==> r.error == BadRequest
    ensures r.Ok? <==> UserWithEmail(users, email).Some? && matches(users[UserWithEmail(users, email).value].password)
    ensures r.Ok? ==> r.value == users[UserWithEmail(users, email).value].(refreshToken := Some(refresh))
  {
    match UserWithEmail(users, email)
    case None => Err(BadRequest)
    case Some(id) =>
      if !matches(users[id].password) then Err(BadRequest)
      else Ok(users[id].(refreshToken := Some(refresh)))
  }

  /** `sendResetPassword`: the account with that email gets the fresh reset
      token. */
  function SendResetOutcome(users: map<Id, User>, email: string, token: string): (r: Result<User>)
    requires EmailsUnique(users)
    ensures r == Err(BadRequest) <==> !EmailTaken(users, email)
    ensures r.Ok? <==> EmailTaken(users, email)
    ensures r.Ok? ==> r.value == users[UserWithEmail(users, email).value].(resetPasswordToken := Some(token))
  {
    match UserWithEmail(users, email)
    case None => Err(BadRequest)
    case Some(id) => Ok(users[id].(resetPasswordToken := Some(token)))
  }

  /** `getResetPasswordLink`: a link is valid exactly when the user exists and
      holds that very reset token. */
  function ResetLinkOutcome(users: map<Id, User>, id: Id, token: string): (r: Result<()>)
    ensures r.Ok? <==> id in users && users[id].resetPasswordToken == Some(token)
    ensures r.Err? ==> r.error == BadRequest
  {
    if id !in users then Err(BadRequest)
    else if users[id].resetPasswordToken.None? || users[id].resetPasswordToken.value != token then Err(BadRequest)
    else Ok(())
  }

  /** `resetPassword`: the same check as the link, then the new hash replaces
      the password and the token is consumed. */
  function ResetPasswordOutcome(users: map<Id, User>, id: Id, token: string, hashed: string): (r: Result<User>)
    ensures r.Ok? <==> ResetLinkOutcome(users, id, token).Ok?
    ensures r.Err? ==> r.error == BadRequest
    ensures r.Ok? ==> r.value == users[id].(password := hashed, resetPasswordToken := None)
  {
    if id !in users then Err(BadRequest)
    else if users[id].resetPasswordToken.None? || users[id].resetPasswordToken.value != token then Err(BadRequest)
    else Ok(users[id].(password := hashed, resetPasswordToken := None))
  }

  /** The link mailed by `sendResetPassword` is accepted. */
  lemma SentLinkIsValid(users: map<Id, User>, email: string, token: string)
    requires EmailsUnique(users) && EmailTaken(users, email)
    ensures var id := UserWithEmail(users, email).value;
      ResetLinkOutcome(StoredUser(users, id, SendResetOutcome(users, email, token)), id, token) == Ok(())
  {
  }

  /** A reset link cannot be used twice: after a successful reset both the
      link check and a second reset refuse the same token. */
  lemma ResetTokenSingleUse(users: map<Id, User>, id: Id, token: string, hashed: string, hashed2: string)
    requires ResetPasswordOutcome(users, id, token, hashed).Ok?
    ensures var after := StoredUser(users, id, ResetPasswordOutcome(users, id, token, hashed));
      ResetLinkOutcome(after, id, token) == Err(BadRequest)
      && ResetPasswordOutcome(after, id, token, hashed2) == Err(BadRequest)
  {
  }

  /** After a reset, the new password is the one that logs in: the stored
      hash is `hashed`. */
  lemma ResetThenLogin(users: map<Id, User>, id: Id, token: string, hashed: string, matches: string -> bool,
                       refresh: string)
    requires EmailsUnique(users) && ResetPasswordOutcome(users, id, token, hashed).Ok?
    ensures var after := StoredUser(users, id, ResetPasswordOutcome(users, id, token, hashed));
      EmailsUnique(after)
      && UserWithEmail(after, users[id].email) == Some(id)
      && (LoginOutcome(after, users[id].email, matches, refresh).Ok? <==> matches(hashed))
  {
    var after := StoredUser(users, id, ResetPasswordOutcome(users, id, token, hashed));
    SaveKeepsEmailsUnique(users, id, after[id]);
    assert after[id].email == users[id].email;
  }

  class AuthProvider {
    const users: Repository<User>

    ghost predicate Valid()
      reads this, users
    {
      users.Valid() && EmailsUnique(users.rows)
    }

    constructor (users: Repository<User>)
      ensures this.users == users
    {
      this.users := users;
    }

    /** `register`: `hashed` is the bcrypt hash of the password, `access` and
      `refresh` the tokens signed for the new user. The account is saved,
      then saved again with its refresh token. */
    method Register(dto: RegisterUserDto, hashed: string, access: string, refresh: string, now: int)
      returns (r: Result<(User, string, string)>, id: Id)
      requires Valid()
      modifies users
      ensures Valid()
      ensures var outcome := RegisterOutcome(old(users.rows), dto, hashed, refresh, now);
        (r.Ok? <==> outcome.Ok?) && (r.Err? ==> r == Err(BadRequest))
        && (r.Ok? ==> r.value == (outcome.value, access, refresh))
      ensures r.Ok? ==> id !in old(users.rows) && users.rows == old(users.rows)[id := r.value.0]
      ensures r.Ok? ==> users.rows[id].refreshToken == Some(r.value.2)
      ensures r.Ok? ==> UserWithEmail(users.rows, dto.email) == Some(id)
      ensures r.Err? ==> users.rows == old(users.rows)
    {
      id := 0;
      var existing := UserWithEmail(users.rows, dto.email);
      if existing.Some? {
        return Err(BadRequest), id;
      }
      var user := User.User(Some(dto.username), dto.email, hashed, Role.User, false, None, None, None, None, now);
      InsertKeepsEmailsUnique(users.rows, users.nextId, user);
      id := users.Insert(user);
      user := user.(refreshToken := Some(refresh));
      SaveKeepsEmailsUnique(users.rows, id, user);
      users.Save(id, user);
      r := Ok((user, access, refresh));
    }

    /** `login`: `matches` is the bcrypt comparison of the given password
      with a stored hash. */
    method Login(email: string, matches: string -> bool, access: string, refresh: string)
      returns (r: Result<(User, string, string)>)
      requires Valid()
      modifies users
      ensures Valid()
      ensures var outcome := LoginOutcome(old(users.rows), email, matches, refresh);
        (r.Ok? <==> outcome.Ok?) && (r.Err? ==> r == Err(BadRequest))
        && (r.Ok? ==> r.value == (outcome.value, access, refresh))
      ensures r.Ok? ==> var id := UserWithEmail(old(users.rows), email).value;
        users.rows == old(users.rows)[id := r.value.0] && users.rows[id].refreshToken == Some(r.value.2)
      ensures r.Err? ==> users.rows == old(users.rows)
    {
      var found := UserWithEmail(users.rows, email);
      if found.None? {
        return Err(BadRequest);
      }
      var id := found.value;
      var user := users.rows[id];
      if !matches(user.password) {
        return Err(BadRequest);
      }
      user := user.(refreshToken := Some(refresh));
      SaveKeepsEmailsUnique(users.rows, id, user);
      users.Save(id, user);
      r := Ok((user, access, refresh));
    }

    /** `sendResetPassword`: `token` is the hex of 32 random bytes. Only the
      account with that email changes. */
    method SendResetPassword(email: string, token: string) returns (r: Result<()>)
      requires Valid()
      modifies users
      ensures Valid()
      ensures var outcome := SendResetOutcome(old(users.rows), email, token);
        (r.Ok? <==> outcome.Ok?) && (r.Err? ==> r == Err(BadRequest))
        && users.rows == if outcome.Ok? then old(users.rows)[UserWithEmail(old(users.rows), email).value := outcome.value]
                         else old(users.rows)
    {
      var found := UserWithEmail(users.rows, email);
      if found.None? {
        return Err(BadRequest);
      }
      var user := users.rows[found.value];
      user := user.(resetPasswordToken := Some(token));
      SaveKeepsEmailsUnique(users.rows, found.value, user);
      users.Save(found.value, user);
      r := Ok(());
    }

    /** `resetPassword`: `hashed` is the bcrypt hash of the new password. */
    method ResetPassword(id: Id, token: string, hashed: string) returns (r: Result<()>)
      requires Valid()
      modifies users
      ensures Valid()
      ensures var outcome := ResetPasswordOutcome(old(users.rows), id, token, hashed);
        (r.Ok? <==> outcome.Ok?) && (r.Err? ==> r == Err(BadRequest))
        && users.rows == StoredUser(old(users.rows), id, outcome)
    {
      if id !in users.rows {
        return Err(BadRequest);
      }
      var user := users.rows[id];
      if user.resetPasswordToken.None? || user.resetPasswordToken.value != token {
        return Err(BadRequest);
      }
      user := user.(password := hashed);
      user := user.(resetPasswordToken := None);
      SaveKeepsEmailsUnique(users.rows, id, user);
      users.Save(id, user);
      r := Ok(());
    }
  }
}
