/** The job table that `schedule_jobs` reads: one row per job, with the
    three columns the scheduler looks at, and the small sequence
    functions that stand for the pandas and dictionary behaviour it
    relies on (first-appearance order of `unique()` and of dictionary
    keys, the first and the last row that carries a given value). */
module JobTable {

  type JobId = string
  type PlatingType = string

  /** One row of the job table. `durationMin` is the raw `DurationMin`
      cell, which may hold a fractional number of minutes. */
  datatype Job = Job(jobId: JobId, durationMin: real, platingType: PlatingType)

  /** Python's `int(x)` on a number: truncation toward zero. */
  function Truncate(x: real): (n: int)
    ensures 0.0 <= x ==> n as real <= x < n as real + 1.0
    ensures x < 0.0 ==> n as real - 1.0 < x <= n as real
  {
    if x >= 0.0 then x.Floor else -((-x).Floor)
  }

  /** The `JobID` column. */
  function Ids(jobs: seq<Job>): (ids: seq<JobId>)
    ensures |ids| == |jobs|
    ensures forall r :: 0 <= r < |jobs| ==> ids[r] == jobs[r].jobId
  {
    seq(|jobs|, r requires 0 <= r < |jobs| => jobs[r].jobId)
  }

  /** The `PlatingType` column. */
  function Types(jobs: seq<Job>): (ts: seq<PlatingType>)
    ensures |ts| == |jobs|
    ensures forall r :: 0 <= r < |jobs| ==> ts[r] == jobs[r].platingType
  {
    seq(|jobs|, r requires 0 <= r < |jobs| => jobs[r].platingType)
  }

  /** No job id occurs in two rows. */
  predicate DistinctIds(jobs: seq<Job>) {
    forall r, s :: 0 <= r < s < |jobs| ==> jobs[r].jobId != jobs[s].jobId
  }

  /** The index of the first occurrence of `x` in `s`. */
  function FirstIndex<T(==)>(s: seq<T>, x: T): (i: nat)
    requires x in s
    ensures i < |s| && s[i] == x
    ensures forall j :: 0 <= j < i ==> s[j] != x
  {
    if s[0] == x then 0 else 1 + FirstIndex(s[1..], x)
  }

  /** The index of the last occurrence of `x` in `s`. */
  function LastIndex<T(==)>(s: seq<T>, x: T): (i: nat)
    requires x in s
    ensures i < |s| && s[i] == x
    ensures forall j :: i < j < |s| ==> s[j] != x
  {
    if s[|s| - 1] == x then |s| - 1 else LastIndex(s[..|s| - 1], x)
  }

  /** The distinct values of `s` in the order in which each first appears:
      what `Series.unique()` returns, and the key order of a dictionary
      filled by assigning the values of `s` one after the other (the order
      itself is `UniqueOrder`). */
  function Unique<T(==, !new)>(s: seq<T>): (u: seq<T>)
    ensures forall x :: x in u <==> x in s
    ensures forall i, j :: 0 <= i < j < |u| ==> u[i] != u[j]
  {
    if s == [] then []
    else
      var p, x := s[..|s| - 1], s[|s| - 1];
      var u := Unique(p);
      if x in u then u else u + [x]
  }

  /** Each value of `Unique(s)` first appears in `s` before the next one does. */
  lemma {:induction false} UniqueOrder<T(!new)>(s: seq<T>)
    ensures forall i, j :: 0 <= i < j < |Unique(s)| ==>
      FirstIndex(s, Unique(s)[i]) < FirstIndex(s, Unique(s)[j])
  {
    if s != [] {
      var p, x := s[..|s| - 1], s[|s| - 1];
      assert s == p + [x];
      UniqueOrder(p);
      FirstIndexSnoc(p, x);
    }
  }

  /** Appending `x` does not move the first occurrence of a value already
      present, and puts the first occurrence of a new `x` at the end. */
  lemma FirstIndexSnoc<T>(p: seq<T>, x: T)
    ensures forall y :: y in p ==> y in p + [x] && FirstIndex(p + [x], y) == FirstIndex(p, y)
    ensures x !in p ==> FirstIndex(p + [x], x) == |p|
  {
    forall y | y in p ensures y in p + [x] && FirstIndex(p + [x], y) == FirstIndex(p, y) {
      FirstIndexPrefix(p, x, y);
    }
  }

  /** Appending a value does not move the first occurrence of one already present. */
  lemma FirstIndexPrefix<T>(p: seq<T>, x: T, y: T)
    requires y in p
    ensures y in p + [x] && FirstIndex(p + [x], y) == FirstIndex(p, y)
  {
    var s := p + [x];
    assert s[FirstIndex(p, y)] == y;
    var i, j := FirstIndex(s, y), FirstIndex(p, y);
    assert s[i] == y && s[j] == y;
  }

  /** Appending `x` makes it the last occurrence of `x` and moves no other. */
  lemma LastIndexSnoc<T>(p: seq<T>, x: T)
    ensures LastIndex(p + [x], x) == |p|
    ensures forall y :: y in p && y != x ==> y in p + [x] && LastIndex(p + [x], y) == LastIndex(p, y)
  {
    var s := p + [x];
    assert s[..|s| - 1] == p;
  }

  /** Without repeated values, `Unique` changes nothing. */
  lemma {:induction false} UniqueOfDistinct<T(!new)>(s: seq<T>)
    requires forall i, j :: 0 <= i < j < |s| ==> s[i] != s[j]
    ensures Unique(s) == s
  {
    if s != [] {
      var p, x := s[..|s| - 1], s[|s| - 1];
      UniqueOfDistinct(p);
      assert x !in p;
    }
  }
}
