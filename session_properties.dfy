/**
 * Properties that relate several handler calls: logout undoes a login's
 * session and is idempotent, a user holds only the latest refresh token, a
 * freshly registered user can log in, and the case-sensitive lookups on the
 * raw username.
 */
module SessionProperties {
  import opened Wrappers
  import opened Api
  import opened JsString
  import opened UserStore
  import opened UserController

  /** Logging out twice leaves the same store and reply as logging out once. */
  lemma LogOutIdempotent(s: Store, id: UserId)
    ensures var once := LogOutOutcome(s, id);
            LogOutOutcome(once.store, id) == once
  {
  }

  /**
   * A login followed by a logout of the same user leaves the original store
   * with that user's session cleared: the logout undoes the login's write and
   * touches nothing else.
   */
  lemma LogInThenLogOut(s: Store, body: LoginBody, isPasswordCorrect: PasswordCheck, minted: TokenPair)
    requires s.Valid()
    requires LogInOutcome(s, body, isPasswordCorrect, minted).response.Success?
    ensures var id := FindOne(s, body.username, body.email).value;
            var after := LogOutOutcome(LogInOutcome(s, body, isPasswordCorrect, minted).store, id).store;
            && after == SetRefreshToken(s, id, None)
            && (s.users[id].refreshToken.None? ==> after == s)
  {
  }

  /**
   * At most one refresh token per user: after two successful logins the user
   * holds the second token, the first is stored nowhere on that record, and
   * every other record is as it was before both.
   */
  lemma LogInTwiceKeepsOnlyLatestToken(s: Store, body: LoginBody, isPasswordCorrect: PasswordCheck,
                                        first: TokenPair, second: TokenPair)
    requires s.Valid()
    requires LogInOutcome(s, body, isPasswordCorrect, first).response.Success?
    ensures var s1 := LogInOutcome(s, body, isPasswordCorrect, first).store;
            var o2 := LogInOutcome(s1, body, isPasswordCorrect, second);
            var id := FindOne(s, body.username, body.email).value;
            && o2.response.Success?
            && o2.store == SetRefreshToken(s, id, Some(second.refreshToken))
            && (first.refreshToken != second.refreshToken
                ==> o2.store.users[id].refreshToken != Some(first.refreshToken))
  {
  }

  /**
   * A user just registered (`CreateOutcome` is registration once validation
   * has passed) with a username without capitals can log in with that
   * username and the registered password: login finds the new record, returns
   * the same view registration returned, and stores the new token.
   */
  lemma RegisterThenLogIn(s: Store, c: Credentials, avatar: Upload, cover: Upload,
                          isPasswordCorrect: PasswordCheck, minted: TokenPair)
    requires s.Valid()
    requires CreateOutcome(s, c, avatar, cover).response.Success?
    requires c.username != "" && ToLower(c.username) == c.username
    requires isPasswordCorrect(c.password, Some(c.password))
    ensures var reg := CreateOutcome(s, c, avatar, cover);
            var login := LogInOutcome(reg.store, LoginBody(Some(c.username), Some(c.password), None),
                                      isPasswordCorrect, minted);
            && login.response.Success?
            && login.response.data.user == reg.response.data
            && login.store.users[s.nextId].refreshToken == Some(minted.refreshToken)
  {
  }

  /** The record registration creates is the one a lookup by its (lower-case) username finds. */
  lemma RegisteredUserIsFound(s: Store, c: Credentials, avatar: Upload, cover: Upload)
    requires s.Valid()
    requires CreateOutcome(s, c, avatar, cover).response.Success?
    requires ToLower(c.username) == c.username
    ensures FindOne(CreateOutcome(s, c, avatar, cover).store, Some(c.username), None) == Some(s.nextId)
  {
  }

  /**
   * The duplicate check looks up the raw username while the stored one is
   * lower-cased: when a record already holds the lower case of a username
   * that is not itself stored (say "alice" is stored and "Alice" registers)
   * and the email is new, registration succeeds and two records end up with
   * the same username.
   */
  lemma CaseVariantUsernameIsAdmitted(s: Store, c: Credentials, avatar: Upload, cover: Upload, holder: UserId)
    requires s.Valid()
    requires Uploaded(avatar).Some?
    requires !AnyMatch(s, Some(c.username), Some(c.email))
    requires holder in s.users && s.users[holder].username == ToLower(c.username)
    ensures var o := CreateOutcome(s, c, avatar, cover);
            && o.response.Success?
            && exists a, b :: a in o.store.users && b in o.store.users && a != b
                              && o.store.users[a].username == o.store.users[b].username
  {
  }

  /** Every stored username is its own lower case, as registration stores it. */
  ghost predicate LowerNames(s: Store) {
    forall id :: id in s.users ==> ToLower(s.users[id].username) == s.users[id].username
  }

  /** Registration, login and logout all keep every stored username lower-case. */
  lemma LowerNamesKept(s: Store, c: Credentials, avatar: Upload, cover: Upload,
                       body: LoginBody, isPasswordCorrect: PasswordCheck, minted: TokenPair, id: UserId)
    requires s.Valid() && LowerNames(s)
    ensures LowerNames(CreateOutcome(s, c, avatar, cover).store)
    ensures LowerNames(LogInOutcome(s, body, isPasswordCorrect, minted).store)
    ensures LowerNames(LogOutOutcome(s, id).store)
  {
  }

  /**
   * Login compares the raw username with the stored, lower-cased ones: on a
   * store of lower-case usernames, a login by a username with a capital and
   * without an email finds no user, whatever the password.
   */
  lemma LogInWithCapitalsFindsNoUser(s: Store, u: string, password: Field,
                                     isPasswordCorrect: PasswordCheck, minted: TokenPair)
    requires s.Valid() && LowerNames(s)
    requires u != "" && ToLower(u) != u
    ensures LogInOutcome(s, LoginBody(Some(u), password, None), isPasswordCorrect, minted)
            == Step(Failure(ApiError(404, MsgNoSuchUser)), s)
  {
  }

  /**
   * An instance of LogInWithCapitalsFindsNoUser: with "alice" stored, a login
   * as "Alice" without an email is a 404.
   */
  lemma LogInIsCaseSensitive(isPasswordCorrect: PasswordCheck, minted: TokenPair)
    ensures var alice := User("alice", "a@example.com", "Alice A", "https://img/a.png", "", "secret1", None);
            var s := Store(map[0 := alice], 1);
            var o := LogInOutcome(s, LoginBody(Some("Alice"), Some("secret1"), None), isPasswordCorrect, minted);
            o.response == Failure(ApiError(404, MsgNoSuchUser)) && o.store == s
  {
  }
}
