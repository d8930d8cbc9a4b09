/**
 * The users collection as the controller sees it: records keyed by id, the
 * projection it sends back to clients, and the `findOne` query on username or
 * email.
 */
module UserStore {
  import opened Wrappers

  /** Ids are handed out in creation order, so a smaller id is an older record. */
  type UserId = nat

  /**
   * One stored user. `password` is whatever the controller handed to the
   * model; hashing and checking it belong to a collaborator. `refreshToken` is
   * the one piece of session state: None means no session.
   */
  datatype User = User(
    username: string,
    email: string,
    fullName: string,
    avatar: string,
    coverImage: string,
    password: string,
    refreshToken: Option<string>)

  /** A user as returned to clients: the record without password and refresh token. */
  datatype UserView = UserView(
    id: UserId,
    username: string,
    email: string,
    fullName: string,
    avatar: string,
    coverImage: string)

  /** The selection `-password -refreshToken`. */
  function View(id: UserId, u: User): UserView {
    UserView(id, u.username, u.email, u.fullName, u.avatar, u.coverImage)
  }

  /**
   * The view depends on the record only through its public fields: changing
   * the password or the refresh token leaves it as it is, and any change to
   * another field shows.
   */
  lemma ViewHidesOnlySecrets(id: UserId, u: User, w: User)
    ensures View(id, u) == View(id, w)
            <==> u.(password := w.password, refreshToken := w.refreshToken) == w
  {
  }

  /** The collection and the id the next created record receives. */
  datatype Store = Store(users: map<UserId, User>, nextId: UserId) {
    /** Every stored id was handed out before `nextId`. */
    ghost predicate Valid() {
      forall id :: id in users ==> id < nextId
    }
  }

  /**
   * The filter `{ $or: [{ username }, { email }] }` on one record: an exact,
   * case-sensitive match on either field. An absent field matches no record.
   */
  predicate Matches(u: User, username: Option<string>, email: Option<string>) {
    (username.Some? && u.username == username.value) || (email.Some? && u.email == email.value)
  }

  /** Some stored record matches the filter. */
  ghost predicate AnyMatch(s: Store, username: Option<string>, email: Option<string>) {
    exists id :: id in s.users && Matches(s.users[id], username, email)
  }

  /** The first matching record among the ids `from` up to (not including) `bound`. */
  function FindFrom(users: map<UserId, User>, username: Option<string>, email: Option<string>,
                    from: UserId, bound: UserId): (r: Option<UserId>)
    ensures r.Some? ==> from <= r.value < bound && r.value in users
                        && Matches(users[r.value], username, email)
    ensures r.Some? ==> forall id :: from <= id < r.value && id in users
                          ==> !Matches(users[id], username, email)
    ensures r.None? ==> forall id :: from <= id < bound && id in users
                          ==> !Matches(users[id], username, email)
    decreases bound - from
  {
    if bound <= from then None
    else if from in users && Matches(users[from], username, email) then Some(from)
    else FindFrom(users, username, email, from + 1, bound)
  }

  /**
   * `User.findOne` with the filter above: the oldest matching record, or None
   * exactly when no record matches.
   */
  function FindOne(s: Store, username: Option<string>, email: Option<string>): (r: Option<UserId>)
    requires s.Valid()
    ensures r.None? <==> !AnyMatch(s, username, email)
    ensures r.Some? ==> r.value in s.users && Matches(s.users[r.value], username, email)
    ensures r.Some? ==> forall id :: id in s.users && id < r.value
                          ==> !Matches(s.users[id], username, email)
  {
    FindFrom(s.users, username, email, 0, s.nextId)
  }
}
