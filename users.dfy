/** `UsersService`: user accounts and the token fields stored on them. Hashes,
    signed tokens and the files behind profile images are produced elsewhere;
    here they are values handed in by the caller. */
module Users {
  import opened Common
  import opened Tables

  datatype User = User(
    username: Option<string>,
    email: string,
    password: string,
    role: Role,
    isAccountVerified: bool,
    verificationToken: Option<string>,
    resetPasswordToken: Option<string>,
    refreshToken: Option<string>,
    profileImage: Option<string>,
    createdAt: int)

  /** The `email` column is UNIQUE. */
  ghost predicate EmailsUnique(users: map<Id, User>) {
    forall i, j :: i in users && j in users && users[i].email == users[j].email ==> i == j
  }

  predicate EmailTaken(users: map<Id, User>, email: string) {
    exists id :: id in users && users[id].email == email
  }

  /** `findOne({ where: { email } })`. */
  function UserWithEmail(users: map<Id, User>, email: string): (r: Option<Id>)
    requires EmailsUnique(users)
    ensures r.Some? ==> r.value in users && users[r.value].email == email
    ensures r.None? <==> !EmailTaken(users, email)
  {
    if EmailTaken(users, email) then
      var id :| id in users && users[id].email == email;
      Some(id)
    else None
  }

  /** A new account stored under a fresh key keeps emails unique when its
      email was free. */
  lemma InsertKeepsEmailsUnique(users: map<Id, User>, id: Id, u: User)
    requires EmailsUnique(users) && id !in users && !EmailTaken(users, u.email)
    ensures EmailsUnique(users[id := u])
  {
  }

  /** Rewriting a stored account without touching its email keeps emails
      unique. */
  lemma SaveKeepsEmailsUnique(users: map<Id, User>, id: Id, u: User)
    requires EmailsUnique(users) && id in users && users[id].email == u.email
    ensures EmailsUnique(users[id := u])
  {
  }

  function StoredUser(users: map<Id, User>, id: Id, r: Result<User>): map<Id, User> {
    if r.Ok? then users[id := r.value] else users
  }

  /** `verifyEmail`: no pending token is `NotFound`, a different token is
      `BadRequest`; a match verifies the account and consumes the token. */
  function VerifyEmailOutcome(users: map<Id, User>, id: Id, token: string): (r: Result<User>)
    ensures r == Err(NotFound) <==> id !in users || users[id].verificationToken.None?
    ensures r == Err(BadRequest) <==>
      id in users && users[id].verificationToken.Some? && users[id].verificationToken.value != token
    ensures r.Ok? <==> id in users && users[id].verificationToken == Some(token)
    ensures r.Ok? ==> r.value == users[id].(isAccountVerified := true, verificationToken := None)
  {
    if id !in users || users[id].verificationToken.None? then Err(NotFound)
    else if users[id].verificationToken.value != token then Err(BadRequest)
    else Ok(users[id].(isAccountVerified := true, verificationToken := None))
  }

  /** A verification link works once: repeating it finds no token. */
  lemma VerifyEmailOnce(users: map<Id, User>, id: Id, token: string)
    requires VerifyEmailOutcome(users, id, token).Ok?
    ensures VerifyEmailOutcome(StoredUser(users, id, VerifyEmailOutcome(users, id, token)), id, token) == Err(NotFound)
  {
  }

  /** `refreshToken`: the presented token must verify, name an existing user,
      and equal the one stored for them; then the stored token is replaced by
      the newly issued one. Every failure is reported as `BadRequest`. */
  function RefreshOutcome(users: map<Id, User>, token: string, verify: string -> Option<Principal>, issued: string)
    : (r: Result<User>)
    ensures r.Err? ==> r.error == BadRequest
    ensures r.Ok? <==>
      verify(token).Some? && verify(token).value.id in users
      && users[verify(token).value.id].refreshToken == Some(token)
    ensures r.Ok? ==> r.value == users[verify(token).value.id].(refreshToken := Some(issued))
  {
    match verify(token)
    case None => Err(BadRequest)
    case Some(payload) =>
      if payload.id !in users then Err(BadRequest)
      else if users[payload.id].refreshToken != Some(token) then Err(BadRequest)
      else Ok(users[payload.id].(refreshToken := Some(issued)))
  }

  /** Rotation: once a refresh has succeeded, the token it consumed is refused
      unless the signer happened to issue the very same string again. */
  lemma RefreshTokenSingleUse(users: map<Id, User>, token: string, verify: string -> Option<Principal>,
                              issued: string, later: string)
    requires RefreshOutcome(users, token, verify, issued).Ok? && issued != token
    ensures var after := StoredUser(users, verify(token).value.id, RefreshOutcome(users, token, verify, issued));
      RefreshOutcome(after, token, verify, later) == Err(BadRequest)
  {
  }

  /** The account `create` stores: not verified, no tokens, no image. */
  datatype CreateUserDto = CreateUserDto(username: string, email: string, role: Role)

  function CreateUserOutcome(users: map<Id, User>, dto: CreateUserDto, hashed: string, now: int): (r: Result<User>)
    ensures r == Err(BadRequest) <==> EmailTaken(users, dto.email)
    ensures r.Ok? <==> !EmailTaken(users, dto.email)
    ensures r.Ok? ==>
      r.value.email == dto.email && r.value.username == Some(dto.username)
      && r.value.password == hashed && r.value.role == dto.role && r.value.createdAt == now
    ensures r.Ok? ==>
      !r.value.isAccountVerified && r.value.verificationToken.None?
      && r.value.resetPasswordToken.None? && r.value.refreshToken.None? && r.value.profileImage.None?
  {
    if EmailTaken(users, dto.email) then Err(BadRequest)
    else Ok(User.User(Some(dto.username), dto.email, hashed, dto.role, false, None, None, None, None, now))
  }

  datatype UpdateUserDto = UpdateUserDto(password: Option<string>, username: Option<string>)

  /** `update`: a missing user is dereferenced (`ServerError`); the username
      is kept unless one is given, the password replaced only when a non-empty
      one is given. */
  function UpdateUserOutcome(users: map<Id, User>, id: Id, dto: UpdateUserDto, hashed: string): (r: Result<User>)
    ensures r.Err? <==> id !in users
    ensures r.Err? ==> r.error == ServerError
    ensures r.Ok? && dto.username.None? ==> r.value.username == users[id].username
    ensures r.Ok? && dto.username.Some? ==> r.value.username == dto.username
    ensures r.Ok? ==> r.value.password == if Truthy(dto.password) then hashed else users[id].password
    ensures r.Ok? ==> r.value.(username := users[id].username, password := users[id].password) == users[id]
  {
    if id !in users then Err(ServerError)
    else
      var u := users[id];
      Ok(u.(username := if dto.username.Some? then dto.username else u.username,
            password := if Truthy(dto.password) then hashed else u.password))
  }

  /** `delete`: the account holder or an administrator may remove it. */
  function DeleteUserOutcome(users: map<Id, User>, id: Id, caller: Principal): (r: Result<()>)
    ensures r == Err(NotFound) <==> id !in users
    ensures r == Err(Forbidden) <==> id in users && id != caller.id && caller.role != Admin
    ensures r.Ok? <==> id in users && (id == caller.id || caller.role == Admin)
  {
    if id !in users then Err(NotFound)
    else if id == caller.id || caller.role == Admin then Ok(())
    else Err(Forbidden)
  }

  /** `setProfileImage` always ends with the new image name. */
  function SetProfileImageOutcome(users: map<Id, User>, id: Id, image: string): (r: Result<User>)
    ensures r == Err(NotFound) <==> id !in users
    ensures r.Ok? <==> id in users
    ensures r.Ok? ==> r.value == users[id].(profileImage := Some(image))
  {
    if id !in users then Err(NotFound) else Ok(users[id].(profileImage := Some(image)))
  }

  /** `removeProfileImage`: `BadRequest` when there is no image to remove. */
  function RemoveProfileImageOutcome(users: map<Id, User>, id: Id): (r: Result<User>)
    ensures r == Err(NotFound) <==> id !in users
    ensures r == Err(BadRequest) <==> id in users && users[id].profileImage.None?
    ensures r.Ok? ==> r.value == users[id].(profileImage := None)
  {
    if id !in users then Err(NotFound)
    else if users[id].profileImage.None? then Err(BadRequest)
    else Ok(users[id].(profileImage := None))
  }

  /** Removing the image twice fails the second time; removing right after
      setting one succeeds. */
  lemma ProfileImageLifecycle(users: map<Id, User>, id: Id, image: string)
    requires id in users
    ensures var withImage := StoredUser(users, id, SetProfileImageOutcome(users, id, image));
      RemoveProfileImageOutcome(withImage, id).Ok?
      && var removed := StoredUser(withImage, id, RemoveProfileImageOutcome(withImage, id));
         RemoveProfileImageOutcome(removed, id) == Err(BadRequest)
  {
  }

  /** The `username` filter of the listing: `LIKE '%name%'`, which a NULL
      username never satisfies. */
  function UsernameFilter(name: Option<string>): User -> bool {
    (u: User) => !Truthy(name) || (u.username.Some? && Contains(u.username.value, name.value))
  }

  function CreatedAt(u: User): int {
    u.createdAt
  }

  class UsersService {
    const users: Repository<User>

    ghost predicate Valid()
      reads this, users
    {
      users.Valid() && EmailsUnique(users.rows)
    }

    constructor (users: Repository<User>)
      ensures this.users == users
    {
      this.users := users;
    }

    method VerifyEmail(id: Id, token: string) returns (r: Result<User>)
      requires Valid()
      modifies users
      ensures Valid()
      ensures r == VerifyEmailOutcome(old(users.rows), id, token)
      ensures users.rows == StoredUser(old(users.rows), id, r)
    {
      var current := GetCurrentUser(id);
      if current.Err? {
        return current;
      }
      var user := current.value;
      if user.verificationToken.None? {
        return Err(NotFound);
      }
      if user.verificationToken.value != token {
        return Err(BadRequest);
      }
      user := user.(isAccountVerified := true);
      user := user.(verificationToken := None);
      users.Save(id, user);
      r := Ok(user);
    }

    /** `refreshToken`: `verify` is the signature check of the refresh
      secret; `access` and `issued` are the tokens the signer produces for the
      user's `{id, role}`. */
    method RefreshToken(token: string, verify: string -> Option<Principal>, access: string, issued: string)
      returns (r: Result<(string, string)>)
      requires Valid()
      modifies users
      ensures Valid()
      ensures var outcome := RefreshOutcome(old(users.rows), token, verify, issued);
        (r.Ok? <==> outcome.Ok?) && (r.Err? ==> r.error == BadRequest)
        && (outcome.Ok? ==> r.value == (access, issued))
        && users.rows == if outcome.Ok? then old(users.rows)[verify(token).value.id := outcome.value] else old(users.rows)
      ensures r.Ok? ==> users.rows[verify(token).value.id].refreshToken == Some(r.value.1)
    {
      var payload := verify(token);
      if payload.None? {
        return Err(BadRequest);
      }
      var current := GetCurrentUser(payload.value.id);
      if current.Err? {
        return Err(BadRequest);
      }
      var user := current.value;
      if user.refreshToken != Some(token) {
        return Err(BadRequest);
      }
      user := user.(refreshToken := Some(issued));
      users.Save(payload.value.id, user);
      r := Ok((access, issued));
    }

    method GetCurrentUser(id: Id) returns (r: Result<User>)
      ensures r.Ok? <==> id in users.rows
      ensures r.Ok? ==> r.value == users.rows[id]
      ensures r.Err? ==> r.error == NotFound
    {
      if id !in users.rows {
        return Err(NotFound);
      }
      r := Ok(users.rows[id]);
    }

    /** `findAll`: a clamped page of the accounts whose username contains the
      search text, newest first. */
    method FindAll(username: Option<string>, pageNumber: Option<int>, perPage: Option<int>) returns (page: seq<User>)
      requires Valid()
      ensures var p := ClampedPaging(pageNumber, perPage);
        page == Find(users.rows, users.nextId, UsernameFilter(username), CreatedAt, p.skip, p.take)
      ensures |page| <= ClampedPaging(pageNumber, perPage).take
      ensures forall u :: u in page ==> u in users.rows.Values && UsernameFilter(username)(u)
      ensures SortedDesc(page, CreatedAt)
    {
      var paging := ClampedPaging(pageNumber, perPage);
      page := Find(users.rows, users.nextId, UsernameFilter(username), CreatedAt, paging.skip, paging.take);
      FindSound(users.rows, users.nextId, UsernameFilter(username), CreatedAt, paging.skip, paging.take);
    }

    method Create(dto: CreateUserDto, hashed: string, now: int) returns (r: Result<User>, id: Id)
      requires Valid()
      modifies users
      ensures Valid()
      ensures r == CreateUserOutcome(old(users.rows), dto, hashed, now)
      ensures r.Ok? ==> id !in old(users.rows) && users.rows == old(users.rows)[id := r.value]
      ensures r.Err? ==> users.rows == old(users.rows)
    {
      id := 0;
      var existing := UserWithEmail(users.rows, dto.email);
      if existing.Some? {
        return Err(BadRequest), id;
      }
      var user := User.User(Some(dto.username), dto.email, hashed, dto.role, false, None, None, None, None, now);
      InsertKeepsEmailsUnique(users.rows, users.nextId, user);
      id := users.Insert(user);
      r := Ok(user);
    }

    /** `hashed` is the bcrypt hash of `dto.password`. */
    method Update(id: Id, dto: UpdateUserDto, hashed: string) returns (r: Result<User>)
      requires Valid()
      modifies users
      ensures Valid()
      ensures r == UpdateUserOutcome(old(users.rows), id, dto, hashed)
      ensures users.rows == StoredUser(old(users.rows), id, r)
    {
      if id !in users.rows {
        return Err(ServerError);
      }
      var user := users.rows[id];
      user := user.(username := if dto.username.Some? then dto.username else user.username);
      if Truthy(dto.password) {
        user := user.(password := hashed);
      }
      SaveKeepsEmailsUnique(users.rows, id, user);
      users.Save(id, user);
      r := Ok(user);
    }

    method Delete(id: Id, caller: Principal) returns (r: Result<()>)
      requires Valid()
      modifies users
      ensures Valid()
      ensures r == DeleteUserOutcome(old(users.rows), id, caller)
      ensures users.rows == if r.Ok? then old(users.rows) - {id} else old(users.rows)
    {
      var current := GetCurrentUser(id);
      if current.Err? {
        return Err(current.error);
      }
      if id == caller.id || caller.role == Admin {
        users.Remove(id);
        return Ok(());
      }
      r := Err(Forbidden);
    }

    method SetProfileImage(id: Id, image: string) returns (r: Result<User>)
      requires Valid()
      modifies users
      ensures Valid()
      ensures r == SetProfileImageOutcome(old(users.rows), id, image)
      ensures users.rows == StoredUser(old(users.rows), id, r)
    {
      var current := GetCurrentUser(id);
      if current.Err? {
        return current;
      }
      var user := current.value;
      if user.profileImage.None? {
        user := user.(profileImage := Some(image));
      } else {
        var removed := RemoveProfileImage(id);
        user := user.(profileImage := Some(image));
      }
      SaveKeepsEmailsUnique(users.rows, id, user);
      users.Save(id, user);
      r := Ok(user);
    }

    method RemoveProfileImage(id: Id) returns (r: Result<User>)
      requires Valid()
      modifies users
      ensures Valid()
      ensures r == RemoveProfileImageOutcome(old(users.rows), id)
      ensures users.rows == StoredUser(old(users.rows), id, r)
    {
      var current := GetCurrentUser(id);
      if current.Err? {
        return current;
      }
      var user := current.value;
      if user.profileImage.None? {
        return Err(BadRequest);
      }
      user := user.(profileImage := None);
      SaveKeepsEmailsUnique(users.rows, id, user);
      users.Save(id, user);
      r := Ok(user);
    }
  }
}
