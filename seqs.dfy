/** The steps the directory's SQL queries are made of, over a table kept in
    insertion order: a WHERE filter, `.first()`, `SELECT DISTINCT column` and
    `ORDER BY column DESC`. */
module Seqs {
  import opened Wrappers

  /** No value occurs twice. */
  predicate NoDup<T(==)>(s: seq<T>) {
    forall i, j :: 0 <= i < j < |s| ==> s[i] != s[j]
  }

  /** Every earlier element is larger than every later one. */
  predicate StrictlyDescending(s: seq<int>) {
    forall i, j :: 0 <= i < j < |s| ==> s[i] > s[j]
  }

  /** The rows of `s` that satisfy `p`, in table order (`filter_by(...).all()`). */
  function Filter<T(==,!new)>(s: seq<T>, p: T -> bool): (r: seq<T>)
    ensures |r| <= |s|
    ensures forall x :: x in r <==> x in s && p(x)
  {
    if s == [] then [] else (if p(s[0]) then [s[0]] else []) + Filter(s[1..], p)
  }

  /** Filtering keeps table order: the rows kept from `s + t` are those kept
      from `s` followed by those kept from `t`. */
  lemma {:induction false} FilterAppend<T(!new)>(s: seq<T>, t: seq<T>, p: T -> bool)
    ensures Filter(s + t, p) == Filter(s, p) + Filter(t, p)
  {
    if s == [] {
      assert s + t == t;
    } else {
      assert (s + t)[0] == s[0];
      assert (s + t)[1..] == s[1..] + t;
      FilterAppend(s[1..], t, p);
    }
  }

  /** The position of the first row that satisfies `p`. */
  function FirstIndex<T>(s: seq<T>, p: T -> bool): (r: Option<nat>)
    ensures r.Some? ==> r.value < |s| && p(s[r.value])
    ensures r.Some? ==> forall j :: 0 <= j < r.value ==> !p(s[j])
    ensures r.None? ==> forall j :: 0 <= j < |s| ==> !p(s[j])
  {
    if s == [] then None
    else if p(s[0]) then Some(0)
    else match FirstIndex(s[1..], p)
      case None => None
      case Some(k) => Some(k + 1)
  }

  /** `.first()` of a filtered query: the earliest row that satisfies `p`. */
  function First<T>(s: seq<T>, p: T -> bool): (r: Option<T>)
    ensures r.None? <==> forall j :: 0 <= j < |s| ==> !p(s[j])
    ensures r.Some? ==> exists i :: 0 <= i < |s| && s[i] == r.value && p(s[i]) &&
                                    forall j :: 0 <= j < i ==> !p(s[j])
  {
    match FirstIndex(s, p)
    case None => None
    case Some(i) => Some(s[i])
  }

  /** `SELECT DISTINCT f FROM s WHERE p`: each value of `f` among the rows
      that satisfy `p`, once. */
  function DistinctWhere<T, U(==,!new)>(s: seq<T>, p: T -> bool, f: T -> U): (r: seq<U>)
    ensures NoDup(r)
    ensures forall y :: y in r <==> exists i :: 0 <= i < |s| && p(s[i]) && f(s[i]) == y
  {
    if s == [] then []
    else
      var d := DistinctWhere(s[..|s| - 1], p, f);
      var x := s[|s| - 1];
      if p(x) && f(x) !in d then d + [f(x)] else d
  }

  /** Inserts `x` at its place in a strictly descending sequence, unless it is
      already there. */
  function InsertDescending(x: int, s: seq<int>): (r: seq<int>)
    requires StrictlyDescending(s)
    ensures StrictlyDescending(r)
    ensures forall y :: y in r <==> y == x || y in s
  {
    if s == [] then [x]
    else if x == s[0] then s
    else if x > s[0] then [x] + s
    else
      var rest := InsertDescending(x, s[1..]);
      assert forall k :: 0 <= k < |rest| ==> rest[k] < s[0] by {
        forall k | 0 <= k < |rest| ensures rest[k] < s[0] {
          assert rest[k] in rest;
        }
      }
      [s[0]] + rest
  }

  /** `ORDER BY ... DESC` of a set of values. */
  function SortDescending(s: seq<int>): (r: seq<int>)
    ensures StrictlyDescending(r)
    ensures forall y :: y in r <==> y in s
  {
    if s == [] then [] else InsertDescending(s[0], SortDescending(s[1..]))
  }

  /** A strictly descending sequence holds no value twice. */
  lemma DescendingHasNoDup(s: seq<int>)
    requires StrictlyDescending(s)
    ensures NoDup(s)
  {
  }
}
