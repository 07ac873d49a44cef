/** The request handlers of app.py that read or change the session or the
    table: login, logout, status, the profile edit and the guide
    acknowledgement, and the `@login_required` gate in front of the data
    endpoints. */
module Server {
  import opened Wrappers
  import opened Seqs
  import opened AppModel
  import Directory

  const RollKey: string := "roll_number"
  const PasswordKey: string := "password"

  /** The keys of a profile edit that are written; any other key is ignored. */
  const LinkedinKey: string := "linkedin_url"
  const InstagramKey: string := "instagram_handle"
  const PhoneKey: string := "phone_number"
  const QuoteKey: string := "personal_quote"

  predicate Editable(key: string) {
    key == LinkedinKey || key == InstagramKey || key == PhoneKey || key == QuoteKey
  }

  /** Python truthiness of `data.get(key)` for a JSON object: the key is
      present, not null and not the empty string. */
  predicate Truthy(data: Payload, key: string) {
    key in data && data[key].Some? && data[key].value != ""
  }

  /** The roll number and password of a login body, or `None` when the body
      is JSON `null` or an empty object, or either of them is missing, null or
      empty. */
  function Credentials(data: Option<Payload>): (r: Option<(string, string)>)
    ensures r.None? <==> data.None? || !Truthy(data.value, RollKey) || !Truthy(data.value, PasswordKey)
    ensures r.Some? ==> r.value.0 != "" && r.value.1 != ""
    ensures r.Some? ==> Some(r.value.0) == data.value[RollKey] && Some(r.value.1) == data.value[PasswordKey]
  {
    if data.None? || |data.value| == 0 then None
    else if !Truthy(data.value, RollKey) || !Truthy(data.value, PasswordKey) then None
    else Some((data.value[RollKey].value, data.value[PasswordKey].value))
  }

  /** The row a login authenticates: the first row with the roll number, if
      the candidate password verifies against its hash. */
  function Authenticate(users: seq<User>, rollNumber: string, candidate: string,
                        verifies: (string, string) -> bool): (r: Option<nat>)
    ensures r.Some? ==> r.value < |users| && users[r.value].rollNumber == rollNumber &&
                        verifies(users[r.value].password, candidate)
    ensures r.Some? ==> forall j :: 0 <= j < r.value ==> users[j].rollNumber != rollNumber
    ensures r.None? <==>
      (forall j :: 0 <= j < |users| ==> users[j].rollNumber != rollNumber) ||
      (exists i :: 0 <= i < |users| && users[i].rollNumber == rollNumber &&
                   (forall j :: 0 <= j < i ==> users[j].rollNumber != rollNumber) &&
                   !verifies(users[i].password, candidate))
  {
    match FirstIndex(users, (u: User) => u.rollNumber == rollNumber)
    case None => None
    case Some(i) => if CheckPassword(users[i], candidate, verifies) then Some(i) else None
  }

  /** With unique roll numbers, a login succeeds exactly when some user has
      the roll number and the password verifies against that user's hash:
      never for a password that does not. */
  lemma AuthenticateSucceedsIff(users: seq<User>, rollNumber: string, candidate: string,
                                verifies: (string, string) -> bool)
    requires UniqueRolls(users)
    ensures Authenticate(users, rollNumber, candidate, verifies).Some? <==>
      exists i :: 0 <= i < |users| && users[i].rollNumber == rollNumber && verifies(users[i].password, candidate)
  {
  }

  /** `update_profile`'s writes: each editable key present in the body is
      stored (null clears the column); nothing else is read from the body. */
  function Patched(u: User, data: Payload): (r: User)
    ensures r.(linkedinUrl := u.linkedinUrl, instagramHandle := u.instagramHandle,
               phoneNumber := u.phoneNumber, personalQuote := u.personalQuote) == u
  {
    var u1 := if LinkedinKey in data then u.(linkedinUrl := data[LinkedinKey]) else u;
    var u2 := if InstagramKey in data then u1.(instagramHandle := data[InstagramKey]) else u1;
    var u3 := if PhoneKey in data then u2.(phoneNumber := data[PhoneKey]) else u2;
    if QuoteKey in data then u3.(personalQuote := data[QuoteKey]) else u3
  }

  /** A present editable key is written and an absent one keeps the stored value. */
  lemma PatchedWritesPresentKeys(u: User, data: Payload)
    ensures Patched(u, data).linkedinUrl == if LinkedinKey in data then data[LinkedinKey] else u.linkedinUrl
    ensures Patched(u, data).instagramHandle == if InstagramKey in data then data[InstagramKey] else u.instagramHandle
    ensures Patched(u, data).phoneNumber == if PhoneKey in data then data[PhoneKey] else u.phoneNumber
    ensures Patched(u, data).personalQuote == if QuoteKey in data then data[QuoteKey] else u.personalQuote
  {
  }

  /** Keys outside the whitelist are ignored: two bodies that agree on the
      editable keys make the same edit. */
  lemma PatchedIgnoresOtherKeys(u: User, data: Payload, other: Payload)
    requires forall k :: Editable(k) ==> (k in data <==> k in other)
    requires forall k :: Editable(k) && k in data ==> data[k] == other[k]
    ensures Patched(u, data) == Patched(u, other)
  {
  }

  /** Sending the same edit twice stores the same row as sending it once. */
  lemma PatchedIdempotent(u: User, data: Payload)
    ensures Patched(Patched(u, data), data) == Patched(u, data)
  {
  }

  /** A body that tries to change `user_type` changes only the editable
      fields it also carries. */
  lemma UserTypeIsNotEditable(u: User)
    ensures Patched(u, map["user_type" := Some("current"), PhoneKey := Some("123")]) ==
            u.(phoneNumber := Some("123"))
  {
  }

  /** Replacing one row by a row with the same roll number and email keeps
      both columns unique. */
  lemma ReplaceKeepsUnique(users: seq<User>, c: nat, v: User)
    requires c < |users| && UniqueRolls(users) && UniqueEmails(users)
    requires v.rollNumber == users[c].rollNumber && v.email == users[c].email
    ensures UniqueRolls(users[c := v]) && UniqueEmails(users[c := v])
  {
  }

  /** No row goes back to `is_new`: rows that were past their first login
      stay so. */
  predicate Settled(before: seq<User>, after: seq<User>) {
    |before| == |after| &&
    forall i :: 0 <= i < |before| && !before[i].isNew ==> !after[i].isNew
  }

  /** The status reply: whether a session is open and, if so, its user's view. */
  datatype StatusReply = StatusReply(loggedIn: bool, user: Option<UserDict>)

  /** The running app: the user table in insertion order, the user of the
      session (a row index; rows are never deleted), and the session's
      `show_guide` flag. */
  class App {
    var users: seq<User>
    var current: Option<nat>
    var showGuide: bool

    ghost predicate Valid()
      reads this
    {
      && (current.Some? ==> current.value < |users|)
      && UniqueRolls(users)
      && UniqueEmails(users)
    }

    /** A table provisioned out of band, and no session yet. */
    constructor (users: seq<User>)
      requires UniqueRolls(users) && UniqueEmails(users)
      ensures Valid()
      ensures this.users == users && current == None && !showGuide
    {
      this.users := users;
      current := None;
      showGuide := false;
    }

    /** `login_api`. A body without both credentials is refused with 400 and an
        unknown roll number or a wrong password with 401, neither changing
        anything. Otherwise the row becomes the session's user; on its first
        login `is_new` is cleared and `show_guide` raised, else neither is
        touched. */
    method Login(data: Option<Payload>, verifies: (string, string) -> bool) returns (r: Reply<UserDict>)
      requires Valid()
      modifies this
      ensures Valid()
      ensures Settled(old(users), users)
      ensures Credentials(data).None? ==>
        r == Fail(MissingCredentials) && unchanged(this)
      ensures Credentials(data).Some? &&
              Authenticate(old(users), Credentials(data).value.0, Credentials(data).value.1, verifies).None? ==>
        r == Fail(InvalidCredentials) && unchanged(this)
      ensures Credentials(data).Some? &&
              Authenticate(old(users), Credentials(data).value.0, Credentials(data).value.1, verifies).Some? ==>
        var i := Authenticate(old(users), Credentials(data).value.0, Credentials(data).value.1, verifies).value;
        && current == Some(i)
        && users == old(users)[i := old(users)[i].(isNew := false)]
        && showGuide == (old(users)[i].isNew || old(showGuide))
        && r == Ok(ToDict(users[i]))
    {
      var credentials := Credentials(data);
      if credentials.None? {
        return Fail(MissingCredentials);
      }
      var (rollNumber, password) := credentials.value;
      var found := Authenticate(users, rollNumber, password, verifies);
      if found.None? {
        return Fail(InvalidCredentials);
      }
      var i := found.value;
      current := Some(i);
      if users[i].isNew {
        showGuide := true;
        users := users[i := users[i].(isNew := false)];
      }
      assert users == old(users)[i := old(users)[i].(isNew := false)];
      r := Ok(ToDict(users[i]));
    }

    /** `logout_api`: ends the session, or 401 when there is none. The table
        and `show_guide` are untouched. */
    method Logout() returns (r: Reply<()>)
      requires Valid()
      modifies this`current
      ensures Valid()
      ensures old(current).None? ==> r == Fail(LoginRequired) && current == None
      ensures old(current).Some? ==> r == Ok(()) && current == None
    {
      if current.None? {
        return Fail(LoginRequired);
      }
      current := None;
      r := Ok(());
    }

    /** `status_api`: never fails; reports whether a session is open and the
        session user's view. */
    function Status(): (r: StatusReply)
      reads this
      requires Valid()
      ensures r.loggedIn <==> current.Some?
      ensures r.user.Some? <==> r.loggedIn
      ensures r.user.Some? ==> r.user.value == ToDict(users[current.value])
    {
      if current.Some? then StatusReply(true, Some(ToDict(users[current.value])))
      else StatusReply(false, None)
    }

    /** `clear_guide`: drops the `show_guide` flag, with or without a session,
        and answers 204. */
    method ClearGuide() returns (status: int)
      modifies this`showGuide
      ensures !showGuide && status == 204
    {
      showGuide := false;
      status := 204;
    }

    /** `update_profile`. Without a session, 401; for a user who is not
        graduated, 403; for a body that is JSON `null`, the membership test
        fails (500).
        In all three cases nothing changes. Otherwise the session user's row
        takes the editable keys present in the body, one field at a time, and
        every other row and column stays as it was. */
    method UpdateProfile(data: Option<Payload>) returns (r: Reply<UserDict>)
      requires Valid()
      modifies this`users
      ensures Valid()
      ensures Settled(old(users), users)
      ensures current.None? ==> r == Fail(LoginRequired) && users == old(users)
      ensures current.Some? && old(users)[current.value].userType != Graduated ==>
        r == Fail(NotGraduated) && users == old(users)
      ensures current.Some? && old(users)[current.value].userType == Graduated && data.None? ==>
        r == Fail(ServerError) && users == old(users)
      ensures current.Some? && old(users)[current.value].userType == Graduated && data.Some? ==>
        && users == old(users)[current.value := Patched(old(users)[current.value], data.value)]
        && r == Ok(ToDict(users[current.value]))
    {
      if current.None? {
        return Fail(LoginRequired);
      }
      var c := current.value;
      if users[c].userType != Graduated {
        return Fail(NotGraduated);
      }
      if data.None? {
        return Fail(ServerError);
      }
      var body := data.value;
      var row := users[c];
      if LinkedinKey in body {
        row := row.(linkedinUrl := body[LinkedinKey]);
      }
      if InstagramKey in body {
        row := row.(instagramHandle := body[InstagramKey]);
      }
      if PhoneKey in body {
        row := row.(phoneNumber := body[PhoneKey]);
      }
      if QuoteKey in body {
        row := row.(personalQuote := body[QuoteKey]);
      }
      assert row == Patched(users[c], body);
      ReplaceKeepsUnique(users, c, row);
      users := users[c := row];
      r := Ok(ToDict(users[c]));
    }

    /** `@login_required`: a data endpoint answers 401 without a session and
        its query's answer with one. */
    function Gated<T>(answer: T): (r: Reply<T>)
      reads this
      ensures r.Fail? <==> current.None?
      ensures r.Fail? ==> r.failure == LoginRequired && r.failure.Status() == 401
      ensures r.Ok? ==> r.value == answer
    {
      if current.Some? then Ok(answer) else Fail(LoginRequired)
    }

    /** `get_batches` behind the gate: 401 without a session, else the query's answer. */
    function BatchesEndpoint(): (r: Reply<seq<int>>)
      reads this
      ensures r.Fail? <==> current.None?
      ensures r.Fail? ==> r.failure == LoginRequired
      ensures r.Ok? ==> r.value == Directory.Batches(users)
    {
      Gated(Directory.Batches(users))
    }

    /** `get_batch_details` behind the gate: 401 without a session, else the query's answer. */
    function BatchEndpoint(year: int): (r: Reply<Directory.BatchDetail>)
      reads this
      ensures r.Fail? <==> current.None?
      ensures r.Fail? ==> r.failure == LoginRequired
      ensures r.Ok? ==> r.value == Directory.BatchDetails(users, year)
    {
      Gated(Directory.BatchDetails(users, year))
    }

    /** `get_branch_details` behind the gate: 401 without a session, else the query's answer. */
    function BranchEndpoint(year: int, branch: string): (r: Reply<Directory.BranchDetail>)
      reads this
      ensures r.Fail? <==> current.None?
      ensures r.Fail? ==> r.failure == LoginRequired
      ensures r.Ok? ==> r.value == Directory.BranchDetails(users, year, branch)
    {
      Gated(Directory.BranchDetails(users, year, branch))
    }

    /** `get_section_students` behind the gate: 401 without a session, else the query's answer. */
    function SectionEndpoint(year: int, branch: string, section: string): (r: Reply<seq<UserDict>>)
      reads this
      ensures r.Fail? <==> current.None?
      ensures r.Fail? ==> r.failure == LoginRequired
      ensures r.Ok? ==> r.value == Directory.SectionStudents(users, year, branch, section)
    {
      Gated(Directory.SectionStudents(users, year, branch, section))
    }

    /** `get_all_branches` behind the gate: 401 without a session, else the query's answer. */
    function AllBranchesEndpoint(): (r: Reply<seq<string>>)
      reads this
      ensures r.Fail? <==> current.None?
      ensures r.Fail? ==> r.failure == LoginRequired
      ensures r.Ok? ==> r.value == Directory.AllBranches(users)
    {
      Gated(Directory.AllBranches(users))
    }

    /** `get_profile` behind the gate: 401 without a session, then 404 for an
        unknown roll number, else the first match's view. */
    function ProfileEndpoint(rollNumber: string): (r: Reply<UserDict>)
      reads this
      ensures current.None? ==> r == Fail(LoginRequired)
      ensures current.Some? ==>
        (r == Fail(NotFound) <==> forall i :: 0 <= i < |users| ==> users[i].rollNumber != rollNumber)
      ensures current.Some? ==> r == Directory.Profile(users, rollNumber)
      ensures r.Fail? ==> r.failure.Status() == (if current.None? then 401 else 404)
    {
      if current.None? then Fail(LoginRequired) else Directory.Profile(users, rollNumber)
    }
  }
}
