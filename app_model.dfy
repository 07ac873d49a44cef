/** The `User` table as app.py declares it, the JSON view its `to_dict`
    returns, and the shapes of the request bodies and error replies the
    endpoints exchange. */
module AppModel {
  import opened Wrappers

  /** The `user_type` that may edit a profile and is listed by year. */
  const Graduated: string := "graduated"

  /** One row of the `user` table. `password` holds the bcrypt hash of the
      password, never the password itself; the nullable text columns are
      `Option`s. */
  datatype User = User(
    id: int,
    rollNumber: string,
    name: string,
    email: string,
    password: string,
    userType: string,
    batchYear: int,
    branch: string,
    section: string,
    isBestOutgoing: bool,
    isBranchTopper: bool,
    personalQuote: Option<string>,
    linkedinUrl: Option<string>,
    instagramHandle: Option<string>,
    phoneNumber: Option<string>,
    isNew: bool)

  /** The dictionary app.py's `to_dict` builds: every column except the
      password hash and `is_new`, stored values unchanged (a null column
      stays null). */
  datatype UserDict = UserDict(
    id: int,
    rollNumber: string,
    name: string,
    email: string,
    userType: string,
    batchYear: int,
    branch: string,
    section: string,
    personalQuote: Option<string>,
    linkedinUrl: Option<string>,
    instagramHandle: Option<string>,
    phoneNumber: Option<string>,
    isBestOutgoing: bool,
    isBranchTopper: bool)

  /** `User.to_dict`: the row's view, each column as stored. */
  function ToDict(u: User): (d: UserDict)
    ensures d.id == u.id && d.rollNumber == u.rollNumber && d.name == u.name && d.email == u.email
    ensures d.userType == u.userType && d.batchYear == u.batchYear
    ensures d.branch == u.branch && d.section == u.section
    ensures d.personalQuote == u.personalQuote && d.linkedinUrl == u.linkedinUrl
    ensures d.instagramHandle == u.instagramHandle && d.phoneNumber == u.phoneNumber
    ensures d.isBestOutgoing == u.isBestOutgoing && d.isBranchTopper == u.isBranchTopper
  {
    UserDict(u.id, u.rollNumber, u.name, u.email, u.userType, u.batchYear, u.branch,
             u.section, u.personalQuote, u.linkedinUrl, u.instagramHandle,
             u.phoneNumber, u.isBestOutgoing, u.isBranchTopper)
  }

  /** The view forgets exactly the hash and `is_new`: two rows give the same
      view if and only if they agree on every other column. */
  lemma ToDictForgetsExactlySecrets(u: User, v: User)
    ensures ToDict(u) == ToDict(v) <==> u.(password := v.password, isNew := v.isNew) == v
  {
  }

  /** `User.check_password`: the bcrypt check of a candidate against the
      stored hash, supplied by the caller. */
  function CheckPassword(u: User, candidate: string, verifies: (string, string) -> bool): (ok: bool)
    ensures ok == verifies(u.password, candidate)
  {
    verifies(u.password, candidate)
  }

  /** The password check sees only the stored hash: rows with the same hash
      accept the same candidates, whatever their other columns. */
  lemma CheckPasswordSeesOnlyHash(u: User, v: User, candidate: string, verifies: (string, string) -> bool)
    requires u.password == v.password
    ensures CheckPassword(u, candidate, verifies) == CheckPassword(v, candidate, verifies)
  {
  }

  /** The table's UNIQUE constraint on `roll_number`. */
  predicate UniqueRolls(users: seq<User>) {
    forall i, j :: 0 <= i < j < |users| ==> users[i].rollNumber != users[j].rollNumber
  }

  /** The table's UNIQUE constraint on `email`. */
  predicate UniqueEmails(users: seq<User>) {
    forall i, j :: 0 <= i < j < |users| ==> users[i].email != users[j].email
  }

  /** A JSON object sent as a request body: a key maps to a string or to
      JSON `null` (`None`). A request body that parses to JSON `null` itself
      is an `Option<Payload>` of `None`. */
  type Payload = map<string, Option<string>>

  /** Why a request failed, with the HTTP status the app answers it with. */
  datatype Failure =
    | MissingCredentials  // login body lacks a roll number or a password
    | InvalidCredentials  // unknown roll number or wrong password
    | LoginRequired       // a `@login_required` route without a session
    | NotGraduated        // profile edit by a user who is not graduated
    | NotFound            // `first_or_404` found no row
    | ServerError         // profile edit whose body is JSON `null`
  {
    function Status(): int {
      match this
      case MissingCredentials => 400
      case InvalidCredentials => 401
      case LoginRequired => 401
      case NotGraduated => 403
      case NotFound => 404
      case ServerError => 500
    }
  }

  /** The outcome of one request: a 200 reply carrying a value, or a failure. */
  datatype Reply<+T> = Ok(value: T) | Fail(failure: Failure)
}
