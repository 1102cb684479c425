/**
 * The register and login handlers over the account table. Password hashing
 * and verification are the `hash` and `verify` parameters; issuing the
 * session cookie is the `session` part of a handler's outcome.
 */
module Auth {
  import opened Wrappers
  import opened Store
  import opened Http

  /** The request body: unreadable (invalid JSON, or `null`), or its two fields. */
  datatype Body = Unreadable | Credentials(username: Option<string>, password: Option<string>)

  /** The handler's answer and the user a session was issued for, if any. */
  datatype Outcome = Outcome(response: Response, session: Option<UserId>)

  const FieldsRequired: Response := Response(400, ErrorJson("Username and password required"))
  const UsernameTaken: Response := Response(400, ErrorJson("Username already taken"))
  const InvalidCredentials: Response := Response(401, ErrorJson("Invalid credentials"))

  /** The field is present and not the empty string (`!value` is false). */
  predicate Given(field: Option<string>)
  {
    field.Some? && field.value != ""
  }

  /** What registration answers and the account table it leaves. */
  datatype Registration = Registration(outcome: Outcome, users: map<string, Account>)

  /** Registration on the account table `users`, with `freshId` the id the store would assign. */
  function Registered(users: map<string, Account>, body: Body, hash: string -> string, freshId: UserId): Registration
  {
    if body.Unreadable? then Registration(Outcome(InternalServerError, None), users)
    else if !Given(body.username) || !Given(body.password) then Registration(Outcome(FieldsRequired, None), users)
    else if body.username.value in users then Registration(Outcome(UsernameTaken, None), users)
    else
      var account := Account(freshId, hash(body.password.value));
      Registration(Outcome(Ok, Some(freshId)), users[body.username.value := account])
  }

  /** `POST /api/auth/register`. */
  method Register(db: Db, body: Body, hash: string -> string, freshId: UserId) returns (outcome: Outcome)
    requires db.Valid()
    requires freshId !in db.AccountIds()
    modifies db
    ensures db.Valid()
    ensures outcome == Registered(old(db.users), body, hash, freshId).outcome
    ensures db.users == Registered(old(db.users), body, hash, freshId).users
    ensures db.conversations == old(db.conversations) && db.messages == old(db.messages)
  {
    if body.Unreadable? {
      return Outcome(InternalServerError, None);
    }
    var username, password := body.username, body.password;
    if !Given(username) || !Given(password) {
      return Outcome(FieldsRequired, None);
    }
    if username.value in db.users {
      return Outcome(UsernameTaken, None);
    }
    var hashedPassword := hash(password.value);
    var user := db.CreateUser(username.value, freshId, hashedPassword);
    outcome := Outcome(Ok, Some(user.id));
  }

  /** `POST /api/auth/login`: reads the account table and never changes it. */
  function Login(users: map<string, Account>, body: Body, verify: (string, string) -> bool): (outcome: Outcome)
    ensures outcome.session.Some? <==>
      && body.Credentials? && Given(body.username) && Given(body.password)
      && body.username.value in users && verify(body.password.value, users[body.username.value].passwordHash)
    ensures outcome.session.Some? ==>
      outcome.session.value == users[body.username.value].id && outcome.response == Ok
    ensures outcome.session.None? ==>
      outcome.response in {InternalServerError, FieldsRequired, InvalidCredentials}
    ensures body.Unreadable? ==> outcome == Outcome(InternalServerError, None)
    ensures body.Credentials? && (!Given(body.username) || !Given(body.password)) ==>
      outcome == Outcome(FieldsRequired, None)
    ensures body.Credentials? && Given(body.username) && Given(body.password) ==>
      (|| body.username.value !in users
       || !verify(body.password.value, users[body.username.value].passwordHash)
      <==> outcome == Outcome(InvalidCredentials, None))
  {
    if body.Unreadable? then Outcome(InternalServerError, None)
    else if !Given(body.username) || !Given(body.password) then Outcome(FieldsRequired, None)
    else if body.username.value !in users then Outcome(InvalidCredentials, None)
    else if !verify(body.password.value, users[body.username.value].passwordHash) then Outcome(InvalidCredentials, None)
    else Outcome(Ok, Some(users[body.username.value].id))
  }

  // ---------------------------------------------------------------------------
  // Properties

  /** A missing or empty field is refused with 400 and creates nothing. */
  lemma RegisterNeedsBothFields(users: map<string, Account>, body: Body, hash: string -> string, freshId: UserId)
    requires body.Credentials? && (!Given(body.username) || !Given(body.password))
    ensures Registered(users, body, hash, freshId) == Registration(Outcome(FieldsRequired, None), users)
  {
  }

  /**
   * A successful registration adds exactly one account, under that username,
   * holding the hash of the password, and issues the session for its id.
   */
  lemma RegisterAddsOneAccount(users: map<string, Account>, body: Body, hash: string -> string, freshId: UserId)
    requires Registered(users, body, hash, freshId).outcome.response == Ok
    ensures var r := Registered(users, body, hash, freshId);
      && body.Credentials? && body.username.Some? && body.password.Some?
      && body.username.value !in users
      && r.users.Keys == users.Keys + {body.username.value}
      && r.users[body.username.value] == Account(freshId, hash(body.password.value))
      && (forall u :: u in users ==> r.users[u] == users[u])
      && r.outcome.session == Some(freshId)
  {
  }

  /** A session is issued only on success. */
  lemma RegisterSessionOnlyOnSuccess(users: map<string, Account>, body: Body, hash: string -> string, freshId: UserId)
    ensures var r := Registered(users, body, hash, freshId);
      r.outcome.session.Some? <==> r.outcome.response == Ok
    ensures var r := Registered(users, body, hash, freshId);
      r.outcome.session.None? ==> r.users == users
  {
  }

  /**
   * Registering a username a second time fails with "Username already taken"
   * and leaves the table as the first registration left it, whatever the
   * second password.
   */
  lemma RegisterTwiceFails(users: map<string, Account>, username: string, password: string, password': string,
                           hash: string -> string, firstId: UserId, secondId: UserId)
    requires username != "" && password != "" && password' != ""
    ensures var first := Registered(users, Credentials(Some(username), Some(password)), hash, firstId);
            var second := Registered(first.users, Credentials(Some(username), Some(password')), hash, secondId);
      second == Registration(Outcome(UsernameTaken, None), first.users)
  {
  }

  /**
   * An unknown username and a wrong password get the same answer, and no
   * session either way.
   */
  lemma LoginFailuresIndistinguishable(users: map<string, Account>, unknown: string, known: string,
                                       password: string, wrong: string, verify: (string, string) -> bool)
    requires unknown != "" && known != "" && password != "" && wrong != ""
    requires unknown !in users && known in users && !verify(wrong, users[known].passwordHash)
    ensures Login(users, Credentials(Some(unknown), Some(password)), verify)
         == Login(users, Credentials(Some(known), Some(wrong)), verify)
         == Outcome(InvalidCredentials, None)
  {
  }

  /**
   * Registration followed by login with the same password succeeds and
   * issues the session for the new account, given that `verify` accepts a
   * password against its own hash.
   */
  lemma RegisterThenLogin(users: map<string, Account>, username: string, password: string,
                          hash: string -> string, verify: (string, string) -> bool, freshId: UserId)
    requires username != "" && password != "" && username !in users
    requires verify(password, hash(password))
    ensures var body := Credentials(Some(username), Some(password));
      Login(Registered(users, body, hash, freshId).users, body, verify) == Outcome(Ok, Some(freshId))
  {
  }
}
