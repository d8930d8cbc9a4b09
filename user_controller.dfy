/**
 * The three request handlers of the user controller and the token helper:
 * registration, login and logout over the users collection.
 *
 * Each handler is given twice: as a function from the old store to the reply
 * and the new store (the `...Outcome` functions, whose contracts state what
 * the handler promises), and as a method of the class `Users`, which updates
 * its fields step by step and is proved to agree with that function.
 */
module UserController {
  import opened Wrappers
  import opened Api
  import opened JsString
  import opened UserStore

  const MsgAllFieldsRequired := "All fields are required"
  const MsgInvalidEmail := "Invalid email"
  const MsgShortPassword := "Password must be at least 6 characters"
  const MsgUserExists := "User is Already Exist"
  const MsgAvatarRequired := "Avatar is Required"
  const MsgRegistered := "USER REGISTERED SUCCESSFULLY"
  const MsgLoginFieldsRequired := "Username or Password are Required"
  const MsgNoSuchUser := "User does not exists"
  const MsgWrongPassword := "Password is incorrect"
  const MsgTokenFailure := "Internal Server Something went wrong while generating refresh and access token"
  const MsgLoggedIn := "USER LOGGEDIN SUCCESSFULLY"
  const MsgLoggedOut := "USER LOGGED OUT"

  /** The smallest password length accepted at registration, in UTF-16 code units. */
  const MinPasswordLength := 6

  /** A body field: absent (undefined or null in the request) or a string. */
  type Field = Option<string>

  /** JavaScript truthiness of a field: present and not the empty string. */
  predicate Truthy(v: Field) {
    v.Some? && v.value != ""
  }

  /** A field is empty when it is absent or consists of whitespace only (the empty string included). */
  function IsEmpty(v: Field): (empty: bool)
    ensures empty <==> v.None? || forall i :: 0 <= i < |v.value| ==> IsWhitespace(v.value[i])
    ensures !empty ==> Truthy(v)
  {
    !Truthy(v) || Trim(v.value) == ""
  }

  datatype RegisterBody = RegisterBody(fullName: Field, email: Field, username: Field, password: Field)

  /** The four registration fields once they are known to be present. */
  datatype Credentials = Credentials(fullName: string, email: string, username: string, password: string)

  /**
   * One uploaded file: the local path multer stored it under (if any), and
   * the URL the upload service answers with for that path (None when the
   * upload fails).
   */
  datatype Upload = Upload(localPath: Field, url: Option<string>)

  /** The upload helper gives nothing for a missing or empty path, and the service's answer otherwise. */
  function Uploaded(f: Upload): (r: Option<string>)
    ensures r.Some? <==> Truthy(f.localPath) && f.url.Some?
    ensures r.Some? ==> r == f.url
  {
    if !Truthy(f.localPath) then None else f.url
  }

  /** The stored cover image: the uploaded URL, or the empty string when there is none. */
  function CoverUrl(f: Upload): string {
    match Uploaded(f)
    case Some(url) => url
    case None => ""
  }

  predicate FieldsPresent(body: RegisterBody) {
    !IsEmpty(body.fullName) && !IsEmpty(body.email) && !IsEmpty(body.username) && !IsEmpty(body.password)
  }

  /**
   * The validation chain of registration. Checked in this order, each failure
   * a 400: every field present and not blank, then an "@" in the email, then a
   * password of at least six UTF-16 code units.
   */
  function ValidateRegistration(body: RegisterBody): (r: Result<Credentials>)
    ensures r.Err? ==> r.error.status == 400
    ensures r.Ok? <==> FieldsPresent(body) && '@' in body.email.value
                       && Utf16Length(body.password.value) >= MinPasswordLength
    ensures r.Ok? ==> r.value == Credentials(body.fullName.value, body.email.value,
                                             body.username.value, body.password.value)
    // a blank field wins over everything else
    ensures !FieldsPresent(body) ==> r == Err(ApiError(400, MsgAllFieldsRequired))
    // the email is examined before the password
    ensures FieldsPresent(body) && '@' !in body.email.value ==> r == Err(ApiError(400, MsgInvalidEmail))
    ensures FieldsPresent(body) && '@' in body.email.value
            && Utf16Length(body.password.value) < MinPasswordLength
            ==> r == Err(ApiError(400, MsgShortPassword))
  {
    if IsEmpty(body.fullName) || IsEmpty(body.email) || IsEmpty(body.username) || IsEmpty(body.password) then
      Err(ApiError(400, MsgAllFieldsRequired))
    else if '@' !in body.email.value then
      Err(ApiError(400, MsgInvalidEmail))
    else if Utf16Length(body.password.value) < MinPasswordLength then
      Err(ApiError(400, MsgShortPassword))
    else
      Ok(Credentials(body.fullName.value, body.email.value, body.username.value, body.password.value))
  }

  /** The reply of a handler together with the store it leaves behind. */
  datatype Step<+T> = Step(response: Response<T>, store: Store)

  /** The new record registration creates. */
  function NewUser(c: Credentials, avatarUrl: string, cover: Upload): (u: User)
    ensures ToLower(u.username) == u.username && |u.username| == |c.username|
    ensures u.refreshToken.None?
  {
    ToLowerIdempotent(c.username);
    User(ToLower(c.username), c.email, c.fullName, avatarUrl, CoverUrl(cover), c.password, None)
  }

  /**
   * Registration once the fields are validated: reject a username or email
   * already stored (the raw username, not its lower case, is looked up),
   * require an avatar, then create one record.
   */
  function CreateOutcome(s: Store, c: Credentials, avatar: Upload, cover: Upload): (o: Step<UserView>)
    requires s.Valid()
    ensures o.store.Valid()
    ensures o.response.Failure? ==> o.store == s
    ensures AnyMatch(s, Some(c.username), Some(c.email))
            ==> o.response == Failure(ApiError(409, MsgUserExists))
    ensures !AnyMatch(s, Some(c.username), Some(c.email)) && Uploaded(avatar).None?
            ==> o.response == Failure(ApiError(400, MsgAvatarRequired))
    ensures o.response.Success? <==> !AnyMatch(s, Some(c.username), Some(c.email)) && Uploaded(avatar).Some?
    ensures o.response.Success? ==>
      var id := s.nextId;
      && o.response.status == 201
      && id !in s.users
      && o.store.nextId == id + 1
      && o.store.users.Keys == s.users.Keys + {id}
      && (forall other :: other in s.users ==> o.store.users[other] == s.users[other])
      && o.store.users[id] == User(ToLower(c.username), c.email, c.fullName,
                                   Uploaded(avatar).value, CoverUrl(cover), c.password, None)
      && o.response.data == View(id, o.store.users[id])
  {
    if FindOne(s, Some(c.username), Some(c.email)).Some? then
      Step(Failure(ApiError(409, MsgUserExists)), s)
    else if !Truthy(avatar.localPath) then
      Step(Failure(ApiError(400, MsgAvatarRequired)), s)
    else
      match Uploaded(avatar)
      case None => Step(Failure(ApiError(400, MsgAvatarRequired)), s)
      case Some(avatarUrl) =>
        var id := s.nextId;
        var user := NewUser(c, avatarUrl, cover);
        Step(Success(201, View(id, user), MsgRegistered), Store(s.users[id := user], id + 1))
  }

  /**
   * `registerUser`: the validation chain, then the duplicate and avatar checks
   * and the creation of the record.
   */
  function RegisterOutcome(s: Store, body: RegisterBody, avatar: Upload, cover: Upload): (o: Step<UserView>)
    requires s.Valid()
    ensures o.store.Valid()
    // any failure leaves the store as it was
    ensures o.response.Failure? ==> o.store == s
    ensures o.response.Failure? ==> o.response.error.status in {400, 409}
    // a validation failure comes first and creates nothing
    ensures ValidateRegistration(body).Err? ==> o.response == Failure(ValidateRegistration(body).error)
    // otherwise the duplicate and avatar checks decide
    ensures ValidateRegistration(body).Ok? ==> o == CreateOutcome(s, ValidateRegistration(body).value, avatar, cover)
  {
    match ValidateRegistration(body)
    case Err(e) => Step(Failure(e), s)
    case Ok(c) => CreateOutcome(s, c, avatar, cover)
  }

  /** The pair of tokens the signing collaborator mints for a user at login. */
  datatype TokenPair = TokenPair(accessToken: string, refreshToken: string)

  /** The result of the token helper together with the store it leaves behind. */
  datatype TokenStep = TokenStep(result: Result<TokenPair>, store: Store)

  /** The store with one user's refresh token replaced; every other record as it was. */
  function SetRefreshToken(s: Store, id: UserId, token: Option<string>): (t: Store)
    requires id in s.users
    ensures t.nextId == s.nextId && t.users.Keys == s.users.Keys
    ensures t.users[id].refreshToken == token
    ensures t.users[id] == s.users[id].(refreshToken := token)
    ensures forall other :: other in s.users && other != id ==> t.users[other] == s.users[other]
  {
    s.(users := s.users[id := s.users[id].(refreshToken := token)])
  }

  /**
   * `generateAccessTokenAndgenerateRefreshToken`: store the freshly minted
   * refresh token on the user and hand back the pair; a missing user is a 500.
   */
  function IssueTokens(s: Store, id: UserId, minted: TokenPair): (o: TokenStep)
    requires s.Valid()
    ensures o.store.Valid()
    ensures o.result.Err? <==> id !in s.users
    ensures o.result.Err? ==> o.result.error == ApiError(500, MsgTokenFailure) && o.store == s
    ensures o.result.Ok? ==> o.result.value == minted
                             && o.store == SetRefreshToken(s, id, Some(minted.refreshToken))
  {
    if id !in s.users then TokenStep(Err(ApiError(500, MsgTokenFailure)), s)
    else TokenStep(Ok(minted), SetRefreshToken(s, id, Some(minted.refreshToken)))
  }

  datatype LoginBody = LoginBody(username: Field, password: Field, email: Field)

  /** What a successful login sends back: the user without its secrets, and both tokens. */
  datatype LoginData = LoginData(user: UserView, accessToken: string, refreshToken: string)

  /**
   * The password check of the model (`isPasswordCorrect`): given the stored
   * password and the one presented, says whether they agree.
   */
  type PasswordCheck = (string, Field) -> bool

  /**
   * `logInUser`: a username is required (an email alone is refused), the
   * oldest record matching the username or the email is taken, its password is
   * checked, and a new token pair is issued and its refresh half stored.
   */
  function LogInOutcome(s: Store, body: LoginBody, isPasswordCorrect: PasswordCheck, minted: TokenPair)
    : (o: Step<LoginData>)
    requires s.Valid()
    ensures o.store.Valid()
    ensures o.response.Failure? ==> o.store == s
    // error precedence: missing username, unknown user, wrong password
    ensures !Truthy(body.username) ==> o.response == Failure(ApiError(400, MsgLoginFieldsRequired))
    ensures Truthy(body.username) && !AnyMatch(s, body.username, body.email)
            ==> o.response == Failure(ApiError(404, MsgNoSuchUser))
    ensures Truthy(body.username) && AnyMatch(s, body.username, body.email)
            && !isPasswordCorrect(s.users[FindOne(s, body.username, body.email).value].password, body.password)
            ==> o.response == Failure(ApiError(402, MsgWrongPassword))
    ensures o.response.Success? <==>
      Truthy(body.username) && AnyMatch(s, body.username, body.email)
      && isPasswordCorrect(s.users[FindOne(s, body.username, body.email).value].password, body.password)
    // a success rotates the matched user's token to the one handed back, and nothing else
    ensures o.response.Success? ==>
      var id := FindOne(s, body.username, body.email).value;
      && o.response.status == 200
      && o.store == SetRefreshToken(s, id, Some(minted.refreshToken))
      && o.response.data == LoginData(View(id, s.users[id]), minted.accessToken, minted.refreshToken)
      && o.store.users[id].refreshToken == Some(o.response.data.refreshToken)
  {
    if !Truthy(body.username) then
      Step(Failure(ApiError(400, MsgLoginFieldsRequired)), s)
    else
      match FindOne(s, body.username, body.email)
      case None => Step(Failure(ApiError(404, MsgNoSuchUser)), s)
      case Some(id) =>
        if !isPasswordCorrect(s.users[id].password, body.password) then
          Step(Failure(ApiError(402, MsgWrongPassword)), s)
        else
          var t := IssueTokens(s, id, minted);
          var pair := t.result.value;
          Step(Success(200, LoginData(View(id, t.store.users[id]), pair.accessToken, pair.refreshToken), MsgLoggedIn),
               t.store)
  }

  /**
   * `logOutUser`: clear the refresh token of the authenticated user. It
   * always answers 200; an id with no record leaves the store as it is.
   */
  function LogOutOutcome(s: Store, id: UserId): (o: Step<()>)
    ensures o.response == Success(200, (), MsgLoggedOut)
    ensures o.store.nextId == s.nextId && o.store.users.Keys == s.users.Keys
    ensures id in s.users ==> o.store.users[id] == s.users[id].(refreshToken := None)
    ensures forall other :: other in s.users && other != id ==> o.store.users[other] == s.users[other]
  {
    if id in s.users then Step(Success(200, (), MsgLoggedOut), SetRefreshToken(s, id, None))
    else Step(Success(200, (), MsgLoggedOut), s)
  }

  /**
   * The users collection as the handlers mutate it: each handler method is
   * proved to leave the fields and return the reply its `...Outcome` function
   * describes.
   */
  class Users {
    var records: map<UserId, User>
    var nextId: UserId

    function State(): Store
      reads this
    {
      Store(records, nextId)
    }

    ghost predicate Valid()
      reads this
    {
      State().Valid()
    }

    constructor ()
      ensures Valid() && records == map[] && nextId == 0
    {
      records := map[];
      nextId := 0;
    }

    method GenerateTokens(id: UserId, minted: TokenPair) returns (r: Result<TokenPair>)
      requires Valid()
      modifies this
      ensures Valid()
      ensures TokenStep(r, State()) == IssueTokens(old(State()), id, minted)
    {
      if id !in records {
        return Err(ApiError(500, MsgTokenFailure));
      }
      var user := records[id];
      user := user.(refreshToken := Some(minted.refreshToken));
      records := records[id := user];
      return Ok(minted);
    }

    method RegisterUser(body: RegisterBody, avatar: Upload, cover: Upload) returns (r: Response<UserView>)
      requires Valid()
      modifies this
      ensures Valid()
      ensures Step(r, State()) == RegisterOutcome(old(State()), body, avatar, cover)
    {
      var checked := ValidateRegistration(body);
      if checked.Err? {
        return Failure(checked.error);
      }
      r := CreateUser(checked.value, avatar, cover);
    }

    /** The part of registration after validation: duplicate check, avatar check, insertion. */
    method CreateUser(c: Credentials, avatar: Upload, cover: Upload) returns (r: Response<UserView>)
      requires Valid()
      modifies this
      ensures Valid()
      ensures Step(r, State()) == CreateOutcome(old(State()), c, avatar, cover)
    {
      var existing := FindOne(State(), Some(c.username), Some(c.email));
      if existing.Some? {
        return Failure(ApiError(409, MsgUserExists));
      }
      if !Truthy(avatar.localPath) {
        return Failure(ApiError(400, MsgAvatarRequired));
      }
      var avatarUrl := Uploaded(avatar);
      if avatarUrl.None? {
        return Failure(ApiError(400, MsgAvatarRequired));
      }
      var id := nextId;
      var user := NewUser(c, avatarUrl.value, cover);
      records := records[id := user];
      nextId := nextId + 1;
      return Success(201, View(id, records[id]), MsgRegistered);
    }

    method LogInUser(body: LoginBody, isPasswordCorrect: PasswordCheck, minted: TokenPair)
      returns (r: Response<LoginData>)
      requires Valid()
      modifies this
      ensures Valid()
      ensures Step(r, State()) == LogInOutcome(old(State()), body, isPasswordCorrect, minted)
    {
      if !Truthy(body.username) {
        return Failure(ApiError(400, MsgLoginFieldsRequired));
      }
      var found := FindOne(State(), body.username, body.email);
      if found.None? {
        return Failure(ApiError(404, MsgNoSuchUser));
      }
      var id := found.value;
      if !isPasswordCorrect(records[id].password, body.password) {
        return Failure(ApiError(402, MsgWrongPassword));
      }
      var tokens := GenerateTokens(id, minted);
      var loggedIn := View(id, records[id]);
      return Success(200, LoginData(loggedIn, tokens.value.accessToken, tokens.value.refreshToken), MsgLoggedIn);
    }

    method LogOutUser(id: UserId) returns (r: Response<()>)
      requires Valid()
      modifies this
      ensures Valid()
      ensures Step(r, State()) == LogOutOutcome(old(State()), id)
    {
      if id in records {
        records := records[id := records[id].(refreshToken := None)];
      }
      return Success(200, (), MsgLoggedOut);
    }
  }
}
