/**
 * The views of the accounts app: signup, which registers a user together with
 * their wallet, and login, which on a failed authentication tells an unknown
 * account from a wrong password.
 */
module AccountViews {
  import opened Common
  import opened AccountModels
  import opened AccountSerializers
  import opened Store

  // ----- Signup -----

  /** Why a signup was refused. */
  datatype SignupError = UsernameExists | EmailExists | UsernameRequired

  /** Some user has exactly this username; a missing username matches nobody. */
  predicate UsernameTaken(users: map<UserId, User>, username: Option<string>) {
    username.Some? && exists id :: id in users && users[id].username == username.value
  }

  /** Some user has exactly this email; a missing email matches nobody. */
  predicate EmailTaken(users: map<UserId, User>, email: Option<string>) {
    email.Some? && exists id :: id in users && users[id].email == email.value
  }

  /**
   * The checks of `SignupView.create`, in its order: a taken username, then a
   * taken email, then a missing or empty username, which `create_user` refuses.
   * `None` means the user can be created.
   */
  function SignupCheck(users: map<UserId, User>, username: Option<string>, email: Option<string>)
    : (r: Option<SignupError>)
    ensures r == Some(UsernameExists) <==> UsernameTaken(users, username)
    ensures r == Some(EmailExists) <==> !UsernameTaken(users, username) && EmailTaken(users, email)
    ensures r == Some(UsernameRequired) <==>
              !UsernameTaken(users, username) && !EmailTaken(users, email) && (username.None? || username.value == [])
    ensures r.None? ==> && username.Some? && username.value != []
                        && (forall id :: id in users ==> users[id].username != username.value)
                        && (email.Some? ==> forall id :: id in users ==> users[id].email != email.value)
  {
    if UsernameTaken(users, username) then Some(UsernameExists)
    else if EmailTaken(users, email) then Some(EmailExists)
    else if username.None? || username.value == [] then Some(UsernameRequired)
    else None
  }

  /** Adding a user whose username nobody has, under a fresh id, keeps usernames unique. */
  lemma AddUserValid(users: map<UserId, User>, nextUserId: UserId, u: User)
    requires UsersValid(users, nextUserId)
    requires u.id == nextUserId
    requires forall id :: id in users ==> users[id].username != u.username
    requires u.email == [] || forall id :: id in users ==> users[id].email != u.email
    ensures UsersValid(users[u.id := u], nextUserId + 1)
  {
  }

  /**
   * `SignupView.create`: on a refused check nothing is written; otherwise one
   * user, active and without any role, is stored under the next id together
   * with one empty wallet of theirs.  A missing email is stored empty.
   */
  method Signup(db: Database, username: Option<string>, email: Option<string>)
    returns (r: Result<User, SignupError>)
    requires db.Valid()
    modifies db`users, db`wallets, db`nextUserId
    ensures db.Valid()
    ensures SignupCheck(old(db.users), username, email).Some? ==>
              r == Err(SignupCheck(old(db.users), username, email).value) && unchanged(db)
    ensures SignupCheck(old(db.users), username, email).None? ==>
              var id := old(db.nextUserId);
              && id !in old(db.users)
              && r == Ok(NewUser(id, username.value, email.GetOr([])))
              && db.users == old(db.users)[id := r.value]
              && db.wallets == old(db.wallets)[id := NewWallet(id)]
              && db.nextUserId == id + 1
  {
    if UsernameTaken(db.users, username) {
      return Err(UsernameExists);
    }
    if EmailTaken(db.users, email) {
      return Err(EmailExists);
    }
    if username.None? || username.value == [] {
      return Err(UsernameRequired);
    }
    var id := db.nextUserId;
    var user := NewUser(id, username.value, email.GetOr([]));
    AddUserValid(db.users, db.nextUserId, user);
    db.users := db.users[id := user];
    db.nextUserId := id + 1;
    db.wallets := db.wallets[id := NewWallet(id)];
    r := Ok(user);
  }

  // ----- Login -----

  /** ASCII case folding, the part of `iexact` the model covers. */
  function LowerChar(c: char): (r: char)
    ensures 'A' <= c <= 'Z' ==> r as int == c as int + 32
    ensures !('A' <= c <= 'Z') ==> r == c
  {
    if 'A' <= c <= 'Z' then (c as int + 32) as char else c
  }

  /**
   * A string with its ASCII capitals folded to lower case, letter by letter:
   * no capital is left, and every other character stays where it was.
   */
  function Lower(s: string): (r: string)
    ensures |r| == |s| && forall i :: 0 <= i < |s| ==> r[i] == LowerChar(s[i])
    ensures forall i :: 0 <= i < |r| ==> !('A' <= r[i] <= 'Z')
    ensures forall i :: 0 <= i < |s| && !('A' <= s[i] <= 'Z') ==> r[i] == s[i]
  {
    seq(|s|, i requires 0 <= i < |s| => LowerChar(s[i]))
  }

  /** Folding case twice is folding it once, so `iexact` compares folded names as they are. */
  lemma LowerIdempotent(s: string)
    ensures Lower(Lower(s)) == Lower(s)
  {
  }

  /** The `iexact` lookup: equal once case is folded. */
  predicate EqualsIgnoreCase(a: string, b: string) {
    Lower(a) == Lower(b)
  }

  /**
   * The users `LoginView.post` looks for after a failed authentication: those
   * whose username or email equals the given name up to case.
   */
  function MatchingUsers(users: map<UserId, User>, name: string): (r: set<UserId>)
    ensures forall id :: id in r <==>
              id in users && (EqualsIgnoreCase(users[id].username, name) || EqualsIgnoreCase(users[id].email, name))
  {
    set id | id in users && (EqualsIgnoreCase(users[id].username, name) || EqualsIgnoreCase(users[id].email, name))
  }

  /** The answers of the login view. */
  datatype LoginOutcome =
    | LoggedIn(user: UserId)
    | InvalidInput(errors: LoginErrors)
    | InvalidPassword
    | UserNotFound
    | ServerError

  /** The HTTP status of each answer; an uncaught exception is a server error. */
  function StatusCode(o: LoginOutcome): (code: nat)
    ensures o.LoggedIn? <==> code == 200
    ensures o.InvalidInput? <==> code == 400
    ensures o.InvalidPassword? || o.UserNotFound? <==> code == 401
    ensures o.ServerError? <==> code == 500
  {
    match o
    case LoggedIn(_) => 200
    case InvalidInput(_) => 400
    case InvalidPassword => 401
    case UserNotFound => 401
    case ServerError => 500
  }

  /**
   * The failure branch as written: `User.objects.get` over the matching users
   * finds none (`DoesNotExist`: "User not found"), exactly one ("Invalid
   * password"), or several, and then raises `MultipleObjectsReturned`, which
   * nothing catches.
   */
  function ClassifyFailureAsWritten(users: map<UserId, User>, name: string): (r: LoginOutcome)
    ensures r == UserNotFound <==> MatchingUsers(users, name) == {}
    ensures r == InvalidPassword <==> |MatchingUsers(users, name)| == 1
    ensures r == ServerError <==> |MatchingUsers(users, name)| > 1
  {
    var matches := MatchingUsers(users, name);
    if |matches| == 0 then UserNotFound
    else if |matches| == 1 then InvalidPassword
    else ServerError
  }

  /** The failure branch as intended: a wrong password whenever some account matches. */
  function ClassifyFailure(users: map<UserId, User>, name: string): (r: LoginOutcome)
    ensures r == UserNotFound <==> MatchingUsers(users, name) == {}
    ensures r == InvalidPassword <==> MatchingUsers(users, name) != {}
    ensures StatusCode(r) == 401
  {
    if MatchingUsers(users, name) == {} then UserNotFound else InvalidPassword
  }

  /** Where at most one account matches, the two classifications agree. */
  lemma ClassificationsAgree(users: map<UserId, User>, name: string)
    requires |MatchingUsers(users, name)| <= 1
    ensures ClassifyFailureAsWritten(users, name) == ClassifyFailure(users, name)
  {
  }

  /**
   * `LoginView.post`: a refused form answers 400; otherwise the cleaned
   * credentials go to `authenticate`, given here as a parameter, and its user
   * logs in; a failed authentication is classified.
   */
  function Login(users: map<UserId, User>, input: LoginInput,
                 authenticate: (string, string) -> Option<UserId>): (r: LoginOutcome)
    ensures CleanLogin(input).Err? ==> r == InvalidInput(CleanLogin(input).error)
    ensures CleanLogin(input).Ok? ==>
              var attrs := CleanLogin(input).value;
              match authenticate(attrs.username.value, attrs.password.value)
              case Some(id) => r == LoggedIn(id)
              case None => r == ClassifyFailure(users, attrs.username.value)
    ensures StatusCode(r) != 500
  {
    match CleanLogin(input)
    case Err(errors) => InvalidInput(errors)
    case Ok(attrs) =>
      match authenticate(attrs.username.value, attrs.password.value)
      case Some(id) => LoggedIn(id)
      case None => ClassifyFailure(users, attrs.username.value)
  }

  /** The login view as written, with the classification that can raise. */
  function LoginAsWritten(users: map<UserId, User>, input: LoginInput,
                          authenticate: (string, string) -> Option<UserId>): (r: LoginOutcome)
    ensures CleanLogin(input).Err? ==> r == Login(users, input, authenticate)
    ensures CleanLogin(input).Ok? ==>
              var attrs := CleanLogin(input).value;
              && (authenticate(attrs.username.value, attrs.password.value).Some? ==> r == Login(users, input, authenticate))
              && (authenticate(attrs.username.value, attrs.password.value).None? ==>
                    r == ClassifyFailureAsWritten(users, attrs.username.value))
  {
    match CleanLogin(input)
    case Err(errors) => InvalidInput(errors)
    case Ok(attrs) =>
      match authenticate(attrs.username.value, attrs.password.value)
      case Some(id) => LoggedIn(id)
      case None => ClassifyFailureAsWritten(users, attrs.username.value)
  }

  /** "Bob" and "bob" are different usernames that the same login name matches. */
  lemma CaseVariantsBothMatch(users: map<UserId, User>)
    requires users == map[0 := NewUser(0, "Bob", []), 1 := NewUser(1, "bob", [])]
    ensures UniqueUsernames(users)
    ensures MatchingUsers(users, "bob") == {0, 1} && |MatchingUsers(users, "bob")| == 2
  {
    assert "Bob"[0] != "bob"[0];
    assert Lower("Bob") == Lower("bob") == "bob";
    assert MatchingUsers(users, "bob") == {0, 1};
  }

  /**
   * A wrong password for "bob" while "Bob" and "bob" both have accounts: the
   * login view as written fails with a server error, the intended one answers
   * "Invalid password".
   */
  lemma CaseVariantsLogin(users: map<UserId, User>, authenticate: (string, string) -> Option<UserId>)
    requires users == map[0 := NewUser(0, "Bob", []), 1 := NewUser(1, "bob", [])]
    requires authenticate("bob", "wrong").None?
    ensures LoginAsWritten(users, LoginInput(Text("bob"), Text("wrong")), authenticate) == ServerError
    ensures Login(users, LoginInput(Text("bob"), Text("wrong")), authenticate) == InvalidPassword
  {
    BobLoginIsClean();
    CaseVariantsBothMatch(users);
  }

  /** The form lets the credentials "bob" and "wrong" through unchanged. */
  lemma BobLoginIsClean()
    ensures CleanLogin(LoginInput(Text("bob"), Text("wrong"))) == Ok(LoginAttrs(Some("bob"), Some("wrong")))
  {
    assert forall i :: 0 <= i < |"bob"| ==> "bob"[i] != Nul;
    assert forall i :: 0 <= i < |"wrong"| ==> "wrong"[i] != Nul;
    CleanTrimmedField("bob", UsernameMaxLength);
    CleanTrimmedField("wrong", PasswordMaxLength);
  }

  /**
   * Usernames are unique only as written, so "Bob" and "bob" can both sign up
   * into an empty database; a wrong password for "bob" then matches both
   * accounts, and the login view as written fails with a server error where
   * "Invalid password" was meant.
   */
  method CaseVariantSignupsBreakLogin() returns (asWritten: LoginOutcome, intended: LoginOutcome)
    ensures asWritten == ServerError && StatusCode(asWritten) == 500
    ensures intended == InvalidPassword && StatusCode(intended) == 401
  {
    var db := new Database();
    var first := Signup(db, Some("Bob"), None);
    assert "Bob"[0] != "bob"[0];
    var second := Signup(db, Some("bob"), None);
    var users := db.users;
    assert users == map[0 := NewUser(0, "Bob", []), 1 := NewUser(1, "bob", [])];
    var noAccount := (username: string, password: string) => None;
    CaseVariantsLogin(users, noAccount);
    var input := LoginInput(Text("bob"), Text("wrong"));
    asWritten := LoginAsWritten(users, input, noAccount);
    intended := Login(users, input, noAccount);
  }
}
