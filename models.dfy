/** The `users` model of models.py: a constructor that stores the given
    columns and only the hash of the password, the password check, and a
    `to_dict` that fills blank contact fields and a blank quote with fixed
    placeholders. */
module Models {
  import opened Wrappers

  const NotAddedYet: string := "Not added yet"
  const DefaultQuote: string :=
    "The future belongs to those who believe in the beauty of their dreams."

  /** Python falsiness of a nullable text column: null or the empty string. */
  predicate Blank(v: Option<string>) {
    v.None? || v.value == ""
  }

  /** Python's `value or placeholder` on a nullable text column. */
  function OrPlaceholder(v: Option<string>, placeholder: string): (r: string)
    ensures Blank(v) ==> r == placeholder
    ensures !Blank(v) ==> r == v.value
    ensures placeholder != "" ==> r != ""
    ensures r == placeholder <==> Blank(v) || v == Some(placeholder)
  {
    if v.Some? && v.value != "" then v.value else placeholder
  }

  /** The dictionary models.py's `to_dict` builds. It has no field for the
      password hash, `is_new` or the honour flags. */
  datatype PublicProfile = PublicProfile(
    rollNumber: string,
    name: string,
    email: string,
    userType: string,
    batchYear: int,
    branch: string,
    section: string,
    linkedinUrl: string,
    instagramHandle: string,
    phoneNumber: string,
    personalQuote: string,
    cgpa: Option<real>)

  class User {
    var rollNumber: string
    var name: string
    var email: string
    var passwordHash: string
    var userType: string
    var batchYear: int
    var branch: string
    var section: string
    var linkedinUrl: Option<string>
    var instagramHandle: Option<string>
    var phoneNumber: Option<string>
    var personalQuote: Option<string>
    var cgpa: Option<real>
    var isBestOutgoing: bool
    var isBranchTopper: bool
    var isNew: bool

    /** `User.__init__`: the eight required columns as given, the password
        only through `hash`; the keyword columns as given, else null, with
        the honour flags false and `is_new` true as the column defaults set
        them when the row is inserted. */
    constructor (rollNumber: string, name: string, email: string, password: string,
                 userType: string, batchYear: int, branch: string, section: string,
                 hash: string -> string,
                 linkedinUrl: Option<string> := None, instagramHandle: Option<string> := None,
                 phoneNumber: Option<string> := None, personalQuote: Option<string> := None,
                 cgpa: Option<real> := None, isBestOutgoing: bool := false,
                 isBranchTopper: bool := false, isNew: bool := true)
      ensures this.rollNumber == rollNumber && this.name == name && this.email == email
      ensures this.userType == userType && this.batchYear == batchYear
      ensures this.branch == branch && this.section == section
      ensures this.passwordHash == hash(password)
      ensures this.linkedinUrl == linkedinUrl && this.instagramHandle == instagramHandle
      ensures this.phoneNumber == phoneNumber && this.personalQuote == personalQuote
      ensures this.cgpa == cgpa
      ensures this.isBestOutgoing == isBestOutgoing && this.isBranchTopper == isBranchTopper
      ensures this.isNew == isNew
    {
      this.rollNumber := rollNumber;
      this.name := name;
      this.email := email;
      this.passwordHash := hash(password);
      this.userType := userType;
      this.batchYear := batchYear;
      this.branch := branch;
      this.section := section;
      this.linkedinUrl := linkedinUrl;
      this.instagramHandle := instagramHandle;
      this.phoneNumber := phoneNumber;
      this.personalQuote := personalQuote;
      this.cgpa := cgpa;
      this.isBestOutgoing := isBestOutgoing;
      this.isBranchTopper := isBranchTopper;
      this.isNew := isNew;
    }

    /** `check_password`: the bcrypt check of a candidate against the stored
        hash; it reads no other field. */
    function CheckPassword(candidate: string, verifies: (string, string) -> bool): (ok: bool)
      reads this`passwordHash
      ensures ok == verifies(passwordHash, candidate)
    {
      verifies(passwordHash, candidate)
    }

    /** `to_dict`: identity and placement as stored, each contact field and
        the quote as stored unless blank, in which case its placeholder. */
    function ToDict(): (d: PublicProfile)
      reads this
      ensures d.rollNumber == rollNumber && d.name == name && d.email == email
      ensures d.userType == userType && d.batchYear == batchYear
      ensures d.branch == branch && d.section == section && d.cgpa == cgpa
      ensures d.linkedinUrl == (if Blank(linkedinUrl) then NotAddedYet else linkedinUrl.value)
      ensures d.instagramHandle == (if Blank(instagramHandle) then NotAddedYet else instagramHandle.value)
      ensures d.phoneNumber == (if Blank(phoneNumber) then NotAddedYet else phoneNumber.value)
      ensures d.personalQuote == (if Blank(personalQuote) then DefaultQuote else personalQuote.value)
      ensures d.linkedinUrl != "" && d.instagramHandle != "" && d.phoneNumber != "" && d.personalQuote != ""
    {
      PublicProfile(rollNumber, name, email, userType, batchYear, branch, section,
                    OrPlaceholder(linkedinUrl, NotAddedYet),
                    OrPlaceholder(instagramHandle, NotAddedYet),
                    OrPlaceholder(phoneNumber, NotAddedYet),
                    OrPlaceholder(personalQuote, DefaultQuote),
                    cgpa)
    }
  }

  /** The password check sees only the hash: two users with the same hash
      accept the same candidates. */
  lemma CheckPasswordSeesOnlyHash(a: User, b: User, candidate: string, verifies: (string, string) -> bool)
    requires a.passwordHash == b.passwordHash
    ensures a.CheckPassword(candidate, verifies) == b.CheckPassword(candidate, verifies)
  {
  }

  /** The view never depends on the hash, `is_new` or the honour flags: two
      users that agree on the other columns give the same view. */
  lemma ToDictHidesSecrets(a: User, b: User)
    requires a.rollNumber == b.rollNumber && a.name == b.name && a.email == b.email
    requires a.userType == b.userType && a.batchYear == b.batchYear
    requires a.branch == b.branch && a.section == b.section && a.cgpa == b.cgpa
    requires a.linkedinUrl == b.linkedinUrl && a.instagramHandle == b.instagramHandle
    requires a.phoneNumber == b.phoneNumber && a.personalQuote == b.personalQuote
    ensures a.ToDict() == b.ToDict()
  {
  }

  /** Each contact field shows its placeholder exactly when it is null, empty,
      or holds the placeholder text itself, and so does the quote with its
      default; the view cannot tell these three apart. */
  lemma PlaceholderIsAmbiguous(u: User)
    ensures u.ToDict().linkedinUrl == NotAddedYet <==>
            Blank(u.linkedinUrl) || u.linkedinUrl == Some(NotAddedYet)
    ensures u.ToDict().instagramHandle == NotAddedYet <==>
            Blank(u.instagramHandle) || u.instagramHandle == Some(NotAddedYet)
    ensures u.ToDict().phoneNumber == NotAddedYet <==>
            Blank(u.phoneNumber) || u.phoneNumber == Some(NotAddedYet)
    ensures u.ToDict().personalQuote == DefaultQuote <==>
            Blank(u.personalQuote) || u.personalQuote == Some(DefaultQuote)
  {
  }
}
