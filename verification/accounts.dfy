/**
 * Account handling of the POST /signup and POST /login handlers: signup
 * looks the email up and saves a new account only when there is none and
 * the schema's required fields are present, login checks the stored
 * password and redirects by role.
 *
 * The user collection is a map from email to account, which is what the
 * unique index on `email` makes of it.
 */
module Accounts {

  /** The role an account gets when it is created without one. */
  const DefaultRole := "buyer"

  /** An account document: email, password as given, role. */
  datatype User = User(email: string, password: string, role: string)

  datatype LoginOutcome = InvalidCredentials | Redirect(path: string)

  /**
   * What a signup reports: the email is taken, the schema's required fields
   * were missing so the save failed and nothing was stored, or the account
   * was created.
   */
  datatype SignupOutcome = AlreadyExists | ValidationFailed | Registered

  /** Every account is stored under its own email. */
  ghost predicate KeyedByEmail(users: map<string, User>) {
    forall e :: e in users ==> users[e].email == e
  }

  /**
   * The schema's `required` validators on `email` and `password`: a save
   * whose value is the empty string is rejected.
   */
  predicate HasRequiredFields(email: string, password: string) {
    email != "" && password != ""
  }

  /** Every stored account sits under its own email and passed validation. */
  ghost predicate WellFormedUsers(users: map<string, User>) {
    && KeyedByEmail(users)
    && forall e :: e in users ==> HasRequiredFields(users[e].email, users[e].password)
  }

  /**
   * Under the unique email index, the map lookup is the query by the
   * `email` field: an account has that email iff it is stored under it.
   */
  lemma LookupIsFindByEmail(users: map<string, User>, email: string)
    requires KeyedByEmail(users)
    ensures (exists e :: e in users && users[e].email == email) <==> email in users
    ensures forall e :: e in users && users[e].email == email ==> e == email && users[e] == users[email]
  {
  }

  /** Whether `email` names an account whose stored password is `password`. */
  predicate Authenticates(users: map<string, User>, email: string, password: string) {
    email in users && users[email].password == password
  }

  /**
   * The login decision: reject an unknown email or a wrong password,
   * otherwise send admins to /admin, sellers to /seller and everyone else
   * to the home page.
   */
  function Login(users: map<string, User>, email: string, password: string): (r: LoginOutcome)
    ensures r.InvalidCredentials? <==> !Authenticates(users, email, password)
    ensures r.Redirect? ==> r.path == "/admin" || r.path == "/seller" || r.path == "/"
    ensures r == Redirect("/admin") <==> Authenticates(users, email, password) && users[email].role == "admin"
    ensures r == Redirect("/seller") <==> Authenticates(users, email, password) && users[email].role == "seller"
    ensures r == Redirect("/") <==>
      Authenticates(users, email, password) && users[email].role != "admin" && users[email].role != "seller"
  {
    if email !in users || users[email].password != password then InvalidCredentials
    else if users[email].role == "admin" then Redirect("/admin")
    else if users[email].role == "seller" then Redirect("/seller")
    else Redirect("/")
  }

  /**
   * The signup decision on a snapshot of the accounts: the new account
   * collection and what the handler reports. The lookup comes first; only
   * then does the save check the required fields.
   */
  function Register(users: map<string, User>, email: string, password: string)
    : (r: (map<string, User>, SignupOutcome))
    ensures r.1 == AlreadyExists <==> email in users
    ensures r.1 == ValidationFailed <==> email !in users && !HasRequiredFields(email, password)
    ensures r.1 != Registered ==> r.0 == users
    ensures r.1 == Registered ==>
      && HasRequiredFields(email, password)
      && r.0.Keys == users.Keys + {email}
      && |r.0| == |users| + 1
      && r.0[email] == User(email, password, DefaultRole)
    ensures forall e :: e in users && e != email ==> e in r.0 && r.0[e] == users[e]
  {
    if email in users then (users, AlreadyExists)
    else if !HasRequiredFields(email, password) then (users, ValidationFailed)
    else (users[email := User(email, password, DefaultRole)], Registered)
  }

  /** Signing up keeps every account stored under its own email and valid. */
  lemma RegisterKeepsWellFormed(users: map<string, User>, email: string, password: string)
    requires WellFormedUsers(users)
    ensures WellFormedUsers(Register(users, email, password).0)
  {
  }

  /**
   * A new account with both fields given can log in at once with its
   * password and lands on the home page.
   */
  lemma LoginAfterSignup(users: map<string, User>, email: string, password: string)
    requires email !in users
    requires HasRequiredFields(email, password)
    ensures Register(users, email, password).1 == Registered
    ensures Login(Register(users, email, password).0, email, password) == Redirect("/")
  {
  }

  /** A signup missing a required field leaves every login outcome as it was. */
  lemma RejectedSignupKeepsLogins(users: map<string, User>, email: string, password: string, guess: string)
    requires !HasRequiredFields(email, password)
    ensures Register(users, email, password).1 != Registered
    ensures Login(Register(users, email, password).0, email, guess) == Login(users, email, guess)
  {
  }

  /** Signing up never changes how anyone else logs in, nor how anyone logs in when it is refused. */
  lemma SignupKeepsOtherLogins(users: map<string, User>, email: string, password: string, other: string, guess: string)
    requires other != email || email in users
    ensures Login(Register(users, email, password).0, other, guess) == Login(users, other, guess)
  {
  }

  /** The user collection, updated in place by signups. */
  class UserStore {
    var users: map<string, User>

    ghost predicate Valid()
      reads this
    {
      WellFormedUsers(users)
    }

    constructor ()
      ensures Valid() && users == map[]
    {
      users := map[];
    }

    /**
     * Looks the email up; when none exists, saves a new account with the
     * default role, which the required-field validation may reject.
     */
    method Signup(email: string, password: string) returns (outcome: SignupOutcome)
      requires Valid()
      modifies this
      ensures Valid()
      ensures outcome == AlreadyExists <==> email in old(users)
      ensures outcome == ValidationFailed <==> email !in old(users) && (email == "" || password == "")
      ensures outcome != Registered ==> users == old(users)
      ensures outcome == Registered ==> users == old(users)[email := User(email, password, DefaultRole)]
      ensures (users, outcome) == Register(old(users), email, password)
    {
      if email in users {
        return AlreadyExists;
      }
      var newUser := User(email, password, DefaultRole);
      if newUser.email == "" || newUser.password == "" {
        // the save fails validation and nothing is stored
        return ValidationFailed;
      }
      users := users[email := newUser];
      outcome := Registered;
    }
  }
}
