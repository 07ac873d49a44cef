/** The read-only data endpoints of app.py: each one a query over the user
    table, answered with the rows' `to_dict` views. */
module Directory {
  import opened Wrappers
  import opened Seqs
  import opened AppModel

  predicate IsGraduate(u: User) { u.userType == Graduated }

  predicate InBatch(u: User, year: int) { u.batchYear == year }

  predicate InBranch(u: User, year: int, branch: string) {
    u.batchYear == year && u.branch == branch
  }

  predicate InSection(u: User, year: int, branch: string, section: string) {
    u.batchYear == year && u.branch == branch && u.section == section
  }

  predicate BestOutgoingOf(u: User, year: int) { u.batchYear == year && u.isBestOutgoing }

  predicate BranchTopperOf(u: User, year: int, branch: string) {
    u.batchYear == year && u.branch == branch && u.isBranchTopper
  }

  /** `get_batches`: the distinct batch years of graduated users, newest first. */
  function Batches(users: seq<User>): (r: seq<int>)
    ensures StrictlyDescending(r)
    ensures NoDup(r)
    ensures forall y :: y in r <==>
      exists i :: 0 <= i < |users| && IsGraduate(users[i]) && users[i].batchYear == y
  {
    var years := SortDescending(DistinctWhere(users, IsGraduate, (u: User) => u.batchYear));
    DescendingHasNoDup(years);
    years
  }

  /** The JSON body of `get_batch_details`. */
  datatype BatchDetail = BatchDetail(batchYear: int, bestOutgoing: Option<UserDict>, branches: seq<string>)

  /** `get_batch_details`: the first best-outgoing student of the year in
      table order, if any, and the distinct branches any user of that year is
      in, whatever the user's type. */
  function BatchDetails(users: seq<User>, year: int): (r: BatchDetail)
    ensures r.batchYear == year
    ensures r.bestOutgoing.None? <==> forall i :: 0 <= i < |users| ==> !BestOutgoingOf(users[i], year)
    ensures r.bestOutgoing.Some? ==>
      exists i :: 0 <= i < |users| && BestOutgoingOf(users[i], year) &&
                  r.bestOutgoing.value == ToDict(users[i]) &&
                  forall j :: 0 <= j < i ==> !BestOutgoingOf(users[j], year)
    ensures NoDup(r.branches)
    ensures forall b :: b in r.branches <==>
      exists i :: 0 <= i < |users| && InBatch(users[i], year) && users[i].branch == b
  {
    var best := First(users, (u: User) => BestOutgoingOf(u, year));
    BatchDetail(
      year,
      if best.Some? then Some(ToDict(best.value)) else None,
      DistinctWhere(users, (u: User) => InBatch(u, year), (u: User) => u.branch))
  }

  /** The JSON body of `get_branch_details`. */
  datatype BranchDetail = BranchDetail(branchTopper: Option<UserDict>, sections: seq<string>)

  /** `get_branch_details`: the first topper of the branch in that year, in
      table order, if any, and the distinct sections of the branch in that
      year. */
  function BranchDetails(users: seq<User>, year: int, branch: string): (r: BranchDetail)
    ensures r.branchTopper.None? <==>
      forall i :: 0 <= i < |users| ==> !BranchTopperOf(users[i], year, branch)
    ensures r.branchTopper.Some? ==>
      exists i :: 0 <= i < |users| && BranchTopperOf(users[i], year, branch) &&
                  r.branchTopper.value == ToDict(users[i]) &&
                  forall j :: 0 <= j < i ==> !BranchTopperOf(users[j], year, branch)
    ensures NoDup(r.sections)
    ensures forall s :: s in r.sections <==>
      exists i :: 0 <= i < |users| && InBranch(users[i], year, branch) && users[i].section == s
  {
    var topper := First(users, (u: User) => BranchTopperOf(u, year, branch));
    BranchDetail(
      if topper.Some? then Some(ToDict(topper.value)) else None,
      DistinctWhere(users, (u: User) => InBranch(u, year, branch), (u: User) => u.section))
  }

  /** The views of a sequence of rows, in the same order. */
  function Views(us: seq<User>): (r: seq<UserDict>)
    ensures |r| == |us|
    ensures forall k :: 0 <= k < |us| ==> r[k] == ToDict(us[k])
  {
    if us == [] then [] else [ToDict(us[0])] + Views(us[1..])
  }

  /** `get_section_students`: the views of every user in the section, in
      table order; an empty list when the section has nobody. */
  function SectionStudents(users: seq<User>, year: int, branch: string, section: string): (r: seq<UserDict>)
    ensures forall d :: d in r <==>
      exists i :: 0 <= i < |users| && InSection(users[i], year, branch, section) && ToDict(users[i]) == d
    ensures r == [] <==> forall i :: 0 <= i < |users| ==> !InSection(users[i], year, branch, section)
  {
    var members := Filter(users, (u: User) => InSection(u, year, branch, section));
    assert forall d :: d in Views(members) <==> exists m :: m in members && ToDict(m) == d by {
      forall d ensures d in Views(members) ==> exists m :: m in members && ToDict(m) == d {
        if d in Views(members) {
          var k :| 0 <= k < |members| && Views(members)[k] == d;
          assert members[k] in members;
        }
      }
      forall d ensures (exists m :: m in members && ToDict(m) == d) ==> d in Views(members) {
        if m :| m in members && ToDict(m) == d {
          var k :| 0 <= k < |members| && members[k] == m;
          assert Views(members)[k] == d;
        }
      }
    }
    assert forall i :: 0 <= i < |users| ==> users[i] in users;
    assert members != [] ==> members[0] in members;
    Views(members)
  }

  /** The listing keeps table order: the students listed from two tables put
      one after the other are those of the first followed by those of the
      second. */
  lemma {:induction false} SectionStudentsAppend(us: seq<User>, vs: seq<User>, year: int, branch: string, section: string)
    ensures SectionStudents(us + vs, year, branch, section) ==
            SectionStudents(us, year, branch, section) + SectionStudents(vs, year, branch, section)
  {
    var p := (u: User) => InSection(u, year, branch, section);
    FilterAppend(us, vs, p);
    ViewsAppend(Filter(us, p), Filter(vs, p));
  }

  /** A one-row table lists its row exactly when the row is in the section;
      with SectionStudentsAppend this fixes the listing of any table. */
  lemma SectionStudentsOfOne(u: User, year: int, branch: string, section: string)
    ensures SectionStudents([u], year, branch, section) ==
            if InSection(u, year, branch, section) then [ToDict(u)] else []
  {
  }

  lemma ViewsAppend(a: seq<User>, b: seq<User>)
    ensures Views(a + b) == Views(a) + Views(b)
  {
  }

  /** `get_profile`: the view of the first user with the roll number, or 404
      when there is none. */
  function Profile(users: seq<User>, rollNumber: string): (r: Reply<UserDict>)
    ensures r.Fail? <==> forall i :: 0 <= i < |users| ==> users[i].rollNumber != rollNumber
    ensures r.Fail? ==> r.failure == NotFound
    ensures r.Ok? ==>
      exists i :: 0 <= i < |users| && users[i].rollNumber == rollNumber &&
                  r.value == ToDict(users[i]) &&
                  forall j :: 0 <= j < i ==> users[j].rollNumber != rollNumber
  {
    match First(users, (u: User) => u.rollNumber == rollNumber)
    case None => Fail(NotFound)
    case Some(u) => Ok(ToDict(u))
  }

  /** Since roll numbers are unique, the profile of a roll number is the view
      of the one user who has it. */
  lemma ProfileOfUniqueRoll(users: seq<User>, i: int)
    requires UniqueRolls(users)
    requires 0 <= i < |users|
    ensures Profile(users, users[i].rollNumber) == Ok(ToDict(users[i]))
  {
  }

  /** `get_all_branches`: the distinct branches of all users. */
  function AllBranches(users: seq<User>): (r: seq<string>)
    ensures NoDup(r)
    ensures forall b :: b in r <==> exists i :: 0 <= i < |users| && users[i].branch == b
  {
    DistinctWhere(users, (u: User) => true, (u: User) => u.branch)
  }
}
