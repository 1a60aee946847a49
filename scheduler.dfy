/** `schedule_jobs`: one interval per job row, bounded to one week, a
    no-overlap constraint per plating type that has more than one row,
    a call to the solver, and one result record per job id. */
module Scheduler {
  import opened JobTable
  import opened CpSat

  /** One week in minutes: the bounds of every start and end variable. */
  const Horizon: int := 24 * 60 * 7

  /** The variables recorded in `job_vars` for one job id. */
  datatype JobVars = JobVars(start: nat, end: nat, interval: nat)

  /** One record of the returned schedule. */
  datatype Record = Record(jobId: JobId, start: int, end: int, platingType: PlatingType)

  // ---------------------------------------------------------------------
  // The constraint set, as a function of the job table
  // ---------------------------------------------------------------------

  /** Row `r` creates the start variable 2r, the end variable 2r+1 and the
      interval r (variables and intervals are numbered in creation order). */
  function RowVars(r: nat): JobVars {
    JobVars(2 * r, 2 * r + 1, r)
  }

  /** The interval `job_vars[id]` names for the id of row `r`: the one created
      by the LAST row with that id, since each row overwrites the entry. */
  function IntervalOfRow(jobs: seq<Job>, r: nat): (i: nat)
    requires r < |jobs|
    ensures i < |jobs| && jobs[i].jobId == jobs[r].jobId
  {
    assert Ids(jobs)[r] == jobs[r].jobId;
    LastIndex(Ids(jobs), jobs[r].jobId)
  }

  /** `job_vars` after the loop over all rows. */
  function JobVarsOf(jobs: seq<Job>): map<JobId, JobVars> {
    map id | id in Ids(jobs) :: RowVars(LastIndex(Ids(jobs), id))
  }

  /** The rows whose `PlatingType` is `t`, in table order. */
  function GroupRows(jobs: seq<Job>, t: PlatingType): (rows: seq<nat>)
    ensures forall p :: 0 <= p < |rows| ==> rows[p] < |jobs| && jobs[rows[p]].platingType == t
    ensures forall p, q :: 0 <= p < q < |rows| ==> rows[p] < rows[q]
    ensures forall r :: 0 <= r < |jobs| && jobs[r].platingType == t ==> r in rows
  {
    if jobs == [] then []
    else
      var n := |jobs| - 1;
      GroupRows(jobs[..n], t) + (if jobs[n].platingType == t then [n] else [])
  }

  /** The intervals `job_vars` names for the given rows. */
  function IntervalsOfRows(jobs: seq<Job>, rows: seq<nat>): seq<nat>
    requires forall p :: 0 <= p < |rows| ==> rows[p] < |jobs|
  {
    seq(|rows|, p requires 0 <= p < |rows| => IntervalOfRow(jobs, rows[p]))
  }

  /** The interval list built for plating type `t`. */
  function Group(jobs: seq<Job>, t: PlatingType): seq<nat> {
    IntervalsOfRows(jobs, GroupRows(jobs, t))
  }

  /** The no-overlap constraints posted for the plating types `ts`, in order:
      one per type with more than one row. */
  function NoOverlapLists(jobs: seq<Job>, ts: seq<PlatingType>): seq<seq<nat>> {
    if ts == [] then []
    else
      var t := ts[|ts| - 1];
      NoOverlapLists(jobs, ts[..|ts| - 1]) +
      (if |GroupRows(jobs, t)| > 1 then [Group(jobs, t)] else [])
  }

  /** Every variable ranges over [0, Horizon]. */
  function Domains(jobs: seq<Job>): seq<Domain> {
    seq(2 * |jobs|, v => Domain(0, Horizon))
  }

  /** Row `r`'s interval: start 2r, size int(DurationMin), end 2r+1. */
  function Intervals(jobs: seq<Job>): seq<IntervalCt> {
    seq(|jobs|, r requires 0 <= r < |jobs| => IntervalCt(2 * r, Truncate(jobs[r].durationMin), 2 * r + 1))
  }

  /** The constraint set `schedule_jobs` hands to the solver. */
  function ModelOf(jobs: seq<Job>): ConstraintModel {
    ConstraintModel(Domains(jobs), Intervals(jobs), NoOverlapLists(jobs, Unique(Types(jobs))))
  }

  // ---------------------------------------------------------------------
  // Reading the solution back
  // ---------------------------------------------------------------------

  /** The record for job id `id`: the solver's values of the variables
      `job_vars[id]` names, and the plating type of the first row with `id`. */
  function RecordOf(jobs: seq<Job>, id: JobId, values: seq<int>): Record
    requires id in Ids(jobs) && |values| == 2 * |jobs|
  {
    var vars := RowVars(LastIndex(Ids(jobs), id));
    Record(id, values[vars.start], values[vars.end], jobs[FirstIndex(Ids(jobs), id)].platingType)
  }

  /** The records extracted from a solution: one per key of `job_vars`, in key order. */
  function Extract(jobs: seq<Job>, values: seq<int>): seq<Record>
    requires |values| == 2 * |jobs|
  {
    var keys := Unique(Ids(jobs));
    seq(|keys|, k requires 0 <= k < |keys| => RecordOf(jobs, keys[k], values))
  }

  // ---------------------------------------------------------------------
  // What a returned schedule promises, stated on the job table alone
  // ---------------------------------------------------------------------

  /** The record for `id` carries that id and the plating type of its first
      row; its start and end lie in [0, Horizon], and its end is its start
      plus int(DurationMin) of the row whose variables `job_vars[id]` holds. */
  predicate RecordValid(jobs: seq<Job>, id: JobId, rec: Record)
    requires id in Ids(jobs)
  {
    && rec.jobId == id
    && rec.platingType == jobs[FirstIndex(Ids(jobs), id)].platingType
    && 0 <= rec.start <= Horizon
    && 0 <= rec.end <= Horizon
    && rec.end == rec.start + Truncate(jobs[LastIndex(Ids(jobs), id)].durationMin)
  }

  /** A valid schedule: one record per distinct job id in first-appearance
      order, each record valid, and no two records of one plating type overlap. */
  predicate ValidSchedule(jobs: seq<Job>, results: seq<Record>) {
    var keys := Unique(Ids(jobs));
    && |results| == |keys|
    && (forall k :: 0 <= k < |results| ==> RecordValid(jobs, keys[k], results[k]))
    && (forall k, l ::
          (0 <= k < |results| && 0 <= l < |results| && k != l &&
           results[k].platingType == results[l].platingType) ==>
          results[k].end <= results[l].start || results[l].end <= results[k].start)
  }

  // ---------------------------------------------------------------------
  // The constraint set, restated row by row
  // ---------------------------------------------------------------------

  /** Bounds and lengths: every variable in [0, Horizon], every row's end its
      start plus its non-negative int(DurationMin). */
  predicate RowsHold(jobs: seq<Job>, a: seq<int>) {
    && |a| == 2 * |jobs|
    && (forall v :: 0 <= v < |a| ==> 0 <= a[v] <= Horizon)
    && (forall r :: 0 <= r < |jobs| ==>
          0 <= Truncate(jobs[r].durationMin) && a[2 * r + 1] == a[2 * r] + Truncate(jobs[r].durationMin))
  }

  /** Intervals `i` and `j` (by the variable numbering of `RowVars`) do not overlap. */
  predicate Apart(a: seq<int>, i: nat, j: nat)
    requires 2 * i + 1 < |a| && 2 * j + 1 < |a|
  {
    a[2 * i + 1] <= a[2 * j] || a[2 * j + 1] <= a[2 * i]
  }

  /** Any two different rows of plating type `t` have non-overlapping intervals. */
  predicate TypeExclusive(jobs: seq<Job>, a: seq<int>, t: PlatingType)
    requires |a| == 2 * |jobs|
  {
    forall r, s {:trigger Apart(a, IntervalOfRow(jobs, r), IntervalOfRow(jobs, s))} ::
      (0 <= r < |jobs| && 0 <= s < |jobs| && r != s &&
       jobs[r].platingType == t && jobs[s].platingType == t) ==>
      Apart(a, IntervalOfRow(jobs, r), IntervalOfRow(jobs, s))
  }

  /** Any two different rows of the same plating type have non-overlapping intervals. */
  predicate SameTypeExclusive(jobs: seq<Job>, a: seq<int>)
    requires |a| == 2 * |jobs|
  {
    forall r, s {:trigger Apart(a, IntervalOfRow(jobs, r), IntervalOfRow(jobs, s))} ::
      (0 <= r < |jobs| && 0 <= s < |jobs| && r != s &&
       jobs[r].platingType == jobs[s].platingType) ==>
      Apart(a, IntervalOfRow(jobs, r), IntervalOfRow(jobs, s))
  }

  /** The intervals listed for type `t` exist, and interval `i` runs from
      variable 2i to variable 2i+1. */
  lemma GroupWellFormed(jobs: seq<Job>, a: seq<int>, t: PlatingType)
    requires |a| == 2 * |jobs|
    ensures forall p :: 0 <= p < |Group(jobs, t)| ==>
      Group(jobs, t)[p] == IntervalOfRow(jobs, GroupRows(jobs, t)[p]) &&
      Group(jobs, t)[p] < |Intervals(jobs)| &&
      IntervalInRange(Intervals(jobs)[Group(jobs, t)[p]], a)
    ensures forall i :: 0 <= i < |jobs| ==>
      Intervals(jobs)[i].start == 2 * i && Intervals(jobs)[i].end == 2 * i + 1
  {
  }

  /** Two positions of the list for type `t` whose intervals the list's
      no-overlap constraint keeps apart. */
  lemma GroupPairApart(jobs: seq<Job>, a: seq<int>, t: PlatingType, p: nat, q: nat)
    requires |a| == 2 * |jobs|
    requires NoOverlapHolds(Intervals(jobs), Group(jobs, t), a)
    requires p < |GroupRows(jobs, t)| && q < |GroupRows(jobs, t)| && p != q
    ensures Apart(a, IntervalOfRow(jobs, GroupRows(jobs, t)[p]), IntervalOfRow(jobs, GroupRows(jobs, t)[q]))
  {
    var rows := GroupRows(jobs, t);
    var ivs := Group(jobs, t);
    var ints := Intervals(jobs);
    var i, j := IntervalOfRow(jobs, rows[p]), IntervalOfRow(jobs, rows[q]);
    assert ivs[p] == i && ivs[q] == j;
    IntervalsAt(jobs);
    assert Disjoint(ints[i], ints[j], a);
  }

  /** Non-overlap of the list for type `t` gives exclusion between the rows of type `t`. */
  lemma GroupNoOverlapGivesExclusive(jobs: seq<Job>, a: seq<int>, t: PlatingType)
    requires |a| == 2 * |jobs|
    requires NoOverlapHolds(Intervals(jobs), Group(jobs, t), a)
    ensures TypeExclusive(jobs, a, t)
  {
    var rows := GroupRows(jobs, t);
    forall r, s | 0 <= r < |jobs| && 0 <= s < |jobs| && r != s &&
                  jobs[r].platingType == t && jobs[s].platingType == t
      ensures Apart(a, IntervalOfRow(jobs, r), IntervalOfRow(jobs, s))
    {
      var p :| 0 <= p < |rows| && rows[p] == r;
      var q :| 0 <= q < |rows| && rows[q] == s;
      GroupPairApart(jobs, a, t, p, q);
    }
  }

  /** Exclusion between the rows of type `t` gives non-overlap of its list. */
  lemma ExclusiveGivesGroupNoOverlap(jobs: seq<Job>, a: seq<int>, t: PlatingType)
    requires |a| == 2 * |jobs|
    requires TypeExclusive(jobs, a, t)
    ensures NoOverlapHolds(Intervals(jobs), Group(jobs, t), a)
  {
    var ivs := Group(jobs, t);
    var ints := Intervals(jobs);
    GroupWellFormed(jobs, a, t);
    forall p, q | 0 <= p < |ivs| && 0 <= q < |ivs| && p != q
      ensures Disjoint(ints[ivs[p]], ints[ivs[q]], a)
    {
      GroupPairDisjoint(jobs, a, t, p, q);
    }
  }

  /** Exclusion keeps the intervals at two positions of the list for `t` disjoint. */
  lemma GroupPairDisjoint(jobs: seq<Job>, a: seq<int>, t: PlatingType, p: nat, q: nat)
    requires |a| == 2 * |jobs|
    requires TypeExclusive(jobs, a, t)
    requires p < |Group(jobs, t)| && q < |Group(jobs, t)| && p != q
    ensures Group(jobs, t)[p] < |Intervals(jobs)| && Group(jobs, t)[q] < |Intervals(jobs)|
    ensures IntervalInRange(Intervals(jobs)[Group(jobs, t)[p]], a)
    ensures IntervalInRange(Intervals(jobs)[Group(jobs, t)[q]], a)
    ensures Disjoint(Intervals(jobs)[Group(jobs, t)[p]], Intervals(jobs)[Group(jobs, t)[q]], a)
  {
    var rows := GroupRows(jobs, t);
    var ivs := Group(jobs, t);
    var i, j := IntervalOfRow(jobs, rows[p]), IntervalOfRow(jobs, rows[q]);
    assert ivs[p] == i && ivs[q] == j;
    IntervalsAt(jobs);
    assert rows[p] != rows[q] by {
      if p < q { assert rows[p] < rows[q]; } else { assert rows[q] < rows[p]; }
    }
    assert Apart(a, i, j);
  }

  /** A type with at most one row imposes nothing: its exclusion holds of every assignment. */
  lemma SingleRowTypeUnconstrained(jobs: seq<Job>, a: seq<int>, t: PlatingType)
    requires |a| == 2 * |jobs| && |GroupRows(jobs, t)| <= 1
    ensures TypeExclusive(jobs, a, t)
  {
    var rows := GroupRows(jobs, t);
    if rows != [] {
      assert forall x :: x in rows ==> x == rows[0];
    }
  }

  /** The lists posted for `ts` are those posted for all but its last type,
      then the list of the last type if it has more than one row. */
  lemma NoOverlapListsSnoc(jobs: seq<Job>, ts: seq<PlatingType>)
    requires ts != []
    ensures NoOverlapLists(jobs, ts) ==
      NoOverlapLists(jobs, ts[..|ts| - 1]) +
      (if |GroupRows(jobs, ts[|ts| - 1])| > 1 then [Group(jobs, ts[|ts| - 1])] else [])
  {
  }

  /** The lists posted for the first k+1 types of `ts`. */
  lemma NoOverlapListsStep(jobs: seq<Job>, ts: seq<PlatingType>, k: nat)
    requires k < |ts|
    ensures NoOverlapLists(jobs, ts[..k + 1]) ==
      NoOverlapLists(jobs, ts[..k]) + (if |Group(jobs, ts[k])| > 1 then [Group(jobs, ts[k])] else [])
  {
    assert ts[..k + 1][..k] == ts[..k];
    NoOverlapListsSnoc(jobs, ts[..k + 1]);
  }

  /** The last type of `ts` is exclusive when the lists posted for `ts` hold. */
  lemma LastTypeExclusive(jobs: seq<Job>, ts: seq<PlatingType>, a: seq<int>)
    requires |a| == 2 * |jobs| && ts != []
    requires forall ivs :: ivs in NoOverlapLists(jobs, ts) ==> NoOverlapHolds(Intervals(jobs), ivs, a)
    ensures TypeExclusive(jobs, a, ts[|ts| - 1])
  {
    var t := ts[|ts| - 1];
    NoOverlapListsSnoc(jobs, ts);
    if |GroupRows(jobs, t)| <= 1 {
      SingleRowTypeUnconstrained(jobs, a, t);
    } else {
      assert Group(jobs, t) in NoOverlapLists(jobs, ts);
      GroupNoOverlapGivesExclusive(jobs, a, t);
    }
  }

  /** Each type in `ts` is exclusive when the no-overlap constraints posted
      for `ts` all hold. */
  lemma {:induction false} ListsGiveExclusive(jobs: seq<Job>, ts: seq<PlatingType>, a: seq<int>)
    requires |a| == 2 * |jobs|
    requires forall ivs :: ivs in NoOverlapLists(jobs, ts) ==> NoOverlapHolds(Intervals(jobs), ivs, a)
    ensures forall t :: t in ts ==> TypeExclusive(jobs, a, t)
  {
    if ts != [] {
      var n := |ts| - 1;
      var front := ts[..n];
      assert ts == front + [ts[n]];
      NoOverlapListsSnoc(jobs, ts);
      forall ivs | ivs in NoOverlapLists(jobs, front)
        ensures NoOverlapHolds(Intervals(jobs), ivs, a)
      {
        assert ivs in NoOverlapLists(jobs, ts);
      }
      ListsGiveExclusive(jobs, front, a);
      LastTypeExclusive(jobs, ts, a);
      forall t | t in ts ensures TypeExclusive(jobs, a, t) {
        if t !in front {
          assert t == ts[n];
        }
      }
    }
  }

  /** The no-overlap constraints posted for `ts` all hold when each type in
      `ts` is exclusive. */
  lemma {:induction false} ExclusiveGivesLists(jobs: seq<Job>, ts: seq<PlatingType>, a: seq<int>)
    requires |a| == 2 * |jobs|
    requires forall t :: t in ts ==> TypeExclusive(jobs, a, t)
    ensures forall ivs :: ivs in NoOverlapLists(jobs, ts) ==> NoOverlapHolds(Intervals(jobs), ivs, a)
  {
    if ts != [] {
      var n := |ts| - 1;
      var t, front := ts[n], ts[..n];
      assert ts == front + [t];
      NoOverlapListsSnoc(jobs, ts);
      ExclusiveGivesLists(jobs, front, a);
      ExclusiveGivesGroupNoOverlap(jobs, a, t);
    }
  }

  /** The constraint set `schedule_jobs` builds is exactly: every variable in
      [0, Horizon], every row's end its start plus its non-negative
      int(DurationMin), and non-overlap between the `job_vars` intervals of any
      two different rows of the same plating type. With unique job ids those
      are the rows' own intervals (`DistinctIdsExclusionIsRowwise`), so rows
      of different types are never constrained against each other; with a
      repeated id they can be (`DuplicateIdCrossTypeConstraint`). */
  lemma ModelSemantics(jobs: seq<Job>, a: seq<int>)
    ensures Satisfies(ModelOf(jobs), a) <==> RowsHold(jobs, a) && SameTypeExclusive(jobs, a)
  {
    if Satisfies(ModelOf(jobs), a) {
      SatisfiesGivesRows(jobs, a);
    }
    if RowsHold(jobs, a) && SameTypeExclusive(jobs, a) {
      RowsGiveSatisfies(jobs, a);
    }
  }

  /** Every row's interval is the one `Intervals` describes. */
  lemma IntervalsAt(jobs: seq<Job>)
    ensures |Intervals(jobs)| == |jobs|
    ensures forall r :: 0 <= r < |jobs| ==>
      Intervals(jobs)[r] == IntervalCt(2 * r, Truncate(jobs[r].durationMin), 2 * r + 1)
  {
  }

  /** A satisfying assignment meets the row constraints and same-type exclusion. */
  lemma SatisfiesGivesRows(jobs: seq<Job>, a: seq<int>)
    requires Satisfies(ModelOf(jobs), a)
    ensures RowsHold(jobs, a) && SameTypeExclusive(jobs, a)
  {
    SatisfiesGivesBounds(jobs, a);
    var ts := Unique(Types(jobs));
    assert ModelOf(jobs).noOverlaps == NoOverlapLists(jobs, ts);
    ListsGiveExclusive(jobs, ts, a);
    EveryTypeExclusive(jobs, a);
  }

  /** A satisfying assignment meets the bounds and the interval lengths. */
  lemma SatisfiesGivesBounds(jobs: seq<Job>, a: seq<int>)
    requires Satisfies(ModelOf(jobs), a)
    ensures RowsHold(jobs, a)
  {
    var m := ModelOf(jobs);
    forall v | 0 <= v < |a| ensures 0 <= a[v] <= Horizon {
      assert m.domains[v] == Domain(0, Horizon);
    }
    forall r | 0 <= r < |jobs|
      ensures 0 <= Truncate(jobs[r].durationMin) && a[2 * r + 1] == a[2 * r] + Truncate(jobs[r].durationMin)
    {
      assert m.intervals[r] == IntervalCt(2 * r, Truncate(jobs[r].durationMin), 2 * r + 1);
      assert IntervalHolds(m.intervals[r], a);
    }
  }

  /** Exclusion for every type that occurs in the table is same-type exclusion. */
  lemma EveryTypeExclusive(jobs: seq<Job>, a: seq<int>)
    requires |a| == 2 * |jobs|
    requires forall t :: t in Unique(Types(jobs)) ==> TypeExclusive(jobs, a, t)
    ensures SameTypeExclusive(jobs, a)
  {
    var ts := Unique(Types(jobs));
    forall r, s | 0 <= r < |jobs| && 0 <= s < |jobs| && r != s &&
                  jobs[r].platingType == jobs[s].platingType
      ensures Apart(a, IntervalOfRow(jobs, r), IntervalOfRow(jobs, s))
    {
      var t := jobs[r].platingType;
      assert Types(jobs)[r] == t;
      assert t in ts;
    }
  }

  /** The row constraints and same-type exclusion together satisfy the model. */
  lemma RowsGiveSatisfies(jobs: seq<Job>, a: seq<int>)
    requires RowsHold(jobs, a) && SameTypeExclusive(jobs, a)
    ensures Satisfies(ModelOf(jobs), a)
  {
    var m := ModelOf(jobs);
    var ts := Unique(Types(jobs));
    IntervalsAt(jobs);
    forall t | t in ts ensures TypeExclusive(jobs, a, t) { }
    ExclusiveGivesLists(jobs, ts, a);
    forall i | 0 <= i < |m.intervals|
      ensures IntervalInRange(m.intervals[i], a) && IntervalHolds(m.intervals[i], a)
    {
    }
  }

  /** The records read back from any assignment that satisfies the constraint
      set form a valid schedule. */
  lemma SolutionIsValidSchedule(jobs: seq<Job>, a: seq<int>)
    requires Satisfies(ModelOf(jobs), a)
    ensures |a| == 2 * |jobs| && ValidSchedule(jobs, Extract(jobs, a))
  {
    SatisfiesGivesRows(jobs, a);
    var keys := Unique(Ids(jobs));
    var results := Extract(jobs, a);
    forall k | 0 <= k < |results| ensures RecordValid(jobs, keys[k], results[k]) {
      RecordOfValid(jobs, a, keys[k]);
    }
    forall k, l | 0 <= k < |results| && 0 <= l < |results| && k != l &&
                  results[k].platingType == results[l].platingType
      ensures results[k].end <= results[l].start || results[l].end <= results[k].start
    {
      RecordsApart(jobs, a, keys[k], keys[l]);
    }
  }

  /** Under the row constraints, the record read back for `id` is valid. */
  lemma RecordOfValid(jobs: seq<Job>, a: seq<int>, id: JobId)
    requires RowsHold(jobs, a) && id in Ids(jobs)
    ensures RecordValid(jobs, id, RecordOf(jobs, id, a))
  {
    var row := LastIndex(Ids(jobs), id);
    assert 2 * row + 1 < |a|;
  }

  /** Under same-type exclusion, the records read back for two different ids
      whose first rows share a plating type do not overlap. */
  lemma RecordsApart(jobs: seq<Job>, a: seq<int>, id1: JobId, id2: JobId)
    requires |a| == 2 * |jobs| && SameTypeExclusive(jobs, a)
    requires id1 in Ids(jobs) && id2 in Ids(jobs) && id1 != id2
    requires RecordOf(jobs, id1, a).platingType == RecordOf(jobs, id2, a).platingType
    ensures RecordOf(jobs, id1, a).end <= RecordOf(jobs, id2, a).start ||
            RecordOf(jobs, id2, a).end <= RecordOf(jobs, id1, a).start
  {
    var ids := Ids(jobs);
    var f1, f2 := FirstIndex(ids, id1), FirstIndex(ids, id2);
    assert IntervalOfRow(jobs, f1) == LastIndex(ids, id1);
    assert IntervalOfRow(jobs, f2) == LastIndex(ids, id2);
    assert Apart(a, IntervalOfRow(jobs, f1), IntervalOfRow(jobs, f2));
  }

  /** With unique job ids the schedule has one record per row, in table
      order, carrying that row's id, plating type and solver values. */
  lemma DistinctIdsOneRecordPerRow(jobs: seq<Job>, a: seq<int>)
    requires |a| == 2 * |jobs| && DistinctIds(jobs)
    ensures |Extract(jobs, a)| == |jobs|
    ensures forall r :: 0 <= r < |jobs| ==>
      Extract(jobs, a)[r] == Record(jobs[r].jobId, a[2 * r], a[2 * r + 1], jobs[r].platingType)
  {
    UniqueOfDistinct(Ids(jobs));
    forall r | 0 <= r < |jobs|
      ensures Extract(jobs, a)[r] == Record(jobs[r].jobId, a[2 * r], a[2 * r + 1], jobs[r].platingType)
    {
      DistinctIdRecord(jobs, a, r);
    }
  }

  /** With unique ids, the r-th record is read from row r's own variables. */
  lemma DistinctIdRecord(jobs: seq<Job>, a: seq<int>, r: nat)
    requires |a| == 2 * |jobs| && DistinctIds(jobs) && r < |jobs|
    requires Unique(Ids(jobs)) == Ids(jobs)
    ensures r < |Extract(jobs, a)|
    ensures Extract(jobs, a)[r] == Record(jobs[r].jobId, a[2 * r], a[2 * r + 1], jobs[r].platingType)
  {
    var ids := Ids(jobs);
    ExtractAt(jobs, a, r);
    var id := ids[r];
    var f, l := FirstIndex(ids, id), LastIndex(ids, id);
    assert jobs[f].jobId == jobs[r].jobId == jobs[l].jobId;
    assert f == r && l == r;
    assert RecordOf(jobs, id, a) == Record(id, a[2 * r], a[2 * r + 1], jobs[r].platingType);
  }

  /** Two rows with the same job id and the same plating type put the one
      interval `job_vars` keeps into that type's list twice, so any solution
      gives that interval size zero: such a table has no solution unless the
      duration of the id's last row truncates to zero. */
  lemma DuplicateIdForcesZeroLength(jobs: seq<Job>, a: seq<int>, r: nat, s: nat)
    requires Satisfies(ModelOf(jobs), a)
    requires r < |jobs| && s < |jobs| && r != s
    requires jobs[r].jobId == jobs[s].jobId && jobs[r].platingType == jobs[s].platingType
    ensures Truncate(jobs[IntervalOfRow(jobs, r)].durationMin) == 0
  {
    SatisfiesGivesRows(jobs, a);
    var i := IntervalOfRow(jobs, r);
    assert IntervalOfRow(jobs, s) == i;
    assert Apart(a, i, i);
  }

  /** With unique job ids, same-type exclusion is between the rows' own
      intervals: it relates rows of one plating type and nothing else. */
  lemma DistinctIdsExclusionIsRowwise(jobs: seq<Job>, a: seq<int>)
    requires |a| == 2 * |jobs| && DistinctIds(jobs)
    ensures SameTypeExclusive(jobs, a) <==>
      forall r, s ::
        (0 <= r < |jobs| && 0 <= s < |jobs| && r != s &&
         jobs[r].platingType == jobs[s].platingType) ==> Apart(a, r, s)
  {
    if SameTypeExclusive(jobs, a) {
      forall r, s | 0 <= r < |jobs| && 0 <= s < |jobs| && r != s &&
                    jobs[r].platingType == jobs[s].platingType
        ensures Apart(a, r, s)
      {
        RowIntervalIsOwn(jobs, r);
        RowIntervalIsOwn(jobs, s);
        assert Apart(a, IntervalOfRow(jobs, r), IntervalOfRow(jobs, s));
      }
    }
    if forall r, s ::
         (0 <= r < |jobs| && 0 <= s < |jobs| && r != s &&
          jobs[r].platingType == jobs[s].platingType) ==> Apart(a, r, s)
    {
      forall r, s | 0 <= r < |jobs| && 0 <= s < |jobs| && r != s &&
                    jobs[r].platingType == jobs[s].platingType
        ensures Apart(a, IntervalOfRow(jobs, r), IntervalOfRow(jobs, s))
      {
        RowIntervalIsOwn(jobs, r);
        RowIntervalIsOwn(jobs, s);
        assert Apart(a, r, s);
      }
    }
  }

  /** With unique job ids, `job_vars` names each row's own interval. */
  lemma RowIntervalIsOwn(jobs: seq<Job>, r: nat)
    requires DistinctIds(jobs) && r < |jobs|
    ensures IntervalOfRow(jobs, r) == r
  {
    var l := IntervalOfRow(jobs, r);
    assert jobs[l].jobId == jobs[r].jobId;
  }

  /** With a repeated job id, a row can be constrained against a row of
      another plating type. Row `r` shares its type with row `q` and its id
      with row `s`, the last row carrying that id, so `job_vars` gives row `r`
      the interval of row `s` and the list for `r`'s type names it: every
      solution keeps row `s` apart from row `q`, whatever the type of `s`.
      Rows (X, A), (X, B), (Y, A) are such a table with r, s, q = 0, 1, 2. */
  lemma DuplicateIdCrossTypeConstraint(jobs: seq<Job>, a: seq<int>, r: nat, s: nat, q: nat)
    requires Satisfies(ModelOf(jobs), a)
    requires r < |jobs| && s < |jobs| && q < |jobs| && r != q && s != q
    requires jobs[r].platingType == jobs[q].platingType
    requires jobs[s].jobId == jobs[r].jobId
    requires forall j :: s < j < |jobs| ==> jobs[j].jobId != jobs[r].jobId
    requires forall j :: q < j < |jobs| ==> jobs[j].jobId != jobs[q].jobId
    ensures 2 * s + 1 < |a| && 2 * q + 1 < |a|
    ensures Apart(a, s, q)
  {
    SatisfiesGivesRows(jobs, a);
    var ids := Ids(jobs);
    var ls, lq := LastIndex(ids, jobs[r].jobId), LastIndex(ids, jobs[q].jobId);
    assert ids[s] == jobs[r].jobId && ids[q] == jobs[q].jobId;
    assert ls == s && lq == q;
    assert Apart(a, IntervalOfRow(jobs, r), IntervalOfRow(jobs, q));
  }

  // ---------------------------------------------------------------------
  // schedule_jobs
  // ---------------------------------------------------------------------

  /** `job_vars[id]`, for an id of the table, holds the variables of the last
      row with that id. */
  lemma JobVarsAt(jobs: seq<Job>, id: JobId)
    requires id in Unique(Ids(jobs))
    ensures id in Ids(jobs) && id in JobVarsOf(jobs)
    ensures JobVarsOf(jobs)[id] == RowVars(LastIndex(Ids(jobs), id))
    ensures 2 * LastIndex(Ids(jobs), id) + 1 < 2 * |jobs|
  {
  }

  /** The k-th record of `Extract` is the record of the k-th key of `job_vars`. */
  lemma ExtractAt(jobs: seq<Job>, values: seq<int>, k: nat)
    requires |values| == 2 * |jobs| && k < |Unique(Ids(jobs))|
    ensures |Extract(jobs, values)| == |Unique(Ids(jobs))|
    ensures Unique(Ids(jobs))[k] in Ids(jobs)
    ensures Extract(jobs, values)[k] == RecordOf(jobs, Unique(Ids(jobs))[k], values)
  {
  }

  /** The effect of one more row on the `JobID` column, on `job_vars` and
      on its key order. */
  lemma JobVarsSnoc(jobs: seq<Job>, i: nat)
    requires i < |jobs|
    ensures Ids(jobs[..i + 1]) == Ids(jobs[..i]) + [jobs[i].jobId]
    ensures JobVarsOf(jobs[..i + 1]) == JobVarsOf(jobs[..i])[jobs[i].jobId := RowVars(i)]
    ensures Unique(Ids(jobs[..i + 1])) ==
      if jobs[i].jobId in Ids(jobs[..i]) then Unique(Ids(jobs[..i]))
      else Unique(Ids(jobs[..i])) + [jobs[i].jobId]
  {
    var p, x := Ids(jobs[..i]), jobs[i].jobId;
    var s := Ids(jobs[..i + 1]);
    assert s == p + [x];
    assert s[..|s| - 1] == p;
    LastIndexSnoc(p, x);
  }

  /** The effect of one more row on the variables and the intervals. */
  lemma RowVariablesSnoc(jobs: seq<Job>, i: nat)
    requires i < |jobs|
    ensures Domains(jobs[..i + 1]) == Domains(jobs[..i]) + [Domain(0, Horizon), Domain(0, Horizon)]
    ensures Intervals(jobs[..i + 1]) ==
      Intervals(jobs[..i]) + [IntervalCt(2 * i, Truncate(jobs[i].durationMin), 2 * i + 1)]
  {
  }

  /** The effect of one more row on the rows of type `t`. */
  lemma GroupRowsSnoc(jobs: seq<Job>, r: nat, t: PlatingType)
    requires r < |jobs|
    ensures GroupRows(jobs[..r + 1], t) ==
      GroupRows(jobs[..r], t) + (if jobs[r].platingType == t then [r] else [])
  {
    assert jobs[..r + 1][..r] == jobs[..r];
  }

  /** One more row adds its `job_vars` interval to the list of its type. */
  lemma GroupIntervalsStep(jobs: seq<Job>, r: nat, t: PlatingType)
    requires r < |jobs|
    ensures IntervalsOfRows(jobs, GroupRows(jobs[..r + 1], t)) ==
      IntervalsOfRows(jobs, GroupRows(jobs[..r], t)) +
      (if jobs[r].platingType == t then [IntervalOfRow(jobs, r)] else [])
  {
    GroupRowsSnoc(jobs, r, t);
    var rows := GroupRows(jobs[..r], t);
    if jobs[r].platingType == t {
      var longer := IntervalsOfRows(jobs, rows + [r]);
      assert longer[|rows|] == IntervalOfRow(jobs, r);
      assert longer[..|rows|] == IntervalsOfRows(jobs, rows);
      assert longer == longer[..|rows|] + [longer[|rows|]];
    }
  }

  /** Lines 6-14: per row, a start and an end variable in [0, Horizon] and an
      interval of size int(DurationMin) between them; `job_vars[id]` takes the
      row's variables. `keys` is the key order of `job_vars`: a new id is
      appended, an id seen before keeps its place. */
  method CreateJobVars(model: CpModel, jobs: seq<Job>) returns (jobVars: map<JobId, JobVars>, keys: seq<JobId>)
    requires model.Proto() == ConstraintModel([], [], [])
    modifies model
    ensures model.domains == Domains(jobs) && model.intervals == Intervals(jobs) && model.noOverlaps == []
    ensures jobVars == JobVarsOf(jobs) && keys == Unique(Ids(jobs))
  {
    jobVars, keys := map[], [];
    for i := 0 to |jobs|
      invariant model.domains == Domains(jobs[..i])
      invariant model.intervals == Intervals(jobs[..i])
      invariant model.noOverlaps == []
      invariant jobVars == JobVarsOf(jobs[..i]) && keys == Unique(Ids(jobs[..i]))
    {
      var id := jobs[i].jobId;
      var dur := Truncate(jobs[i].durationMin);
      var start := model.NewIntVar(0, Horizon);
      var end := model.NewIntVar(0, Horizon);
      var interval := model.NewIntervalVar(start, dur, end);
      assert JobVars(start, end, interval) == RowVars(i);
      RowVariablesSnoc(jobs, i);
      assert model.domains == Domains(jobs[..i + 1]);
      assert model.intervals == Intervals(jobs[..i + 1]);
      JobVarsSnoc(jobs, i);
      if id !in jobVars {
        keys := keys + [id];
      }
      jobVars := jobVars[id := JobVars(start, end, interval)];
    }
    assert jobs[..|jobs|] == jobs;
  }

  /** Line 17: `job_vars[row.JobID].interval` for every row whose plating type
      is `plating`, in table order. */
  method GroupIntervals(jobs: seq<Job>, jobVars: map<JobId, JobVars>, plating: PlatingType)
    returns (ivs: seq<nat>)
    requires jobVars == JobVarsOf(jobs)
    ensures ivs == Group(jobs, plating)
    ensures forall p :: 0 <= p < |ivs| ==> ivs[p] < |jobs|
  {
    ivs := [];
    for r := 0 to |jobs|
      invariant ivs == IntervalsOfRows(jobs, GroupRows(jobs[..r], plating))
    {
      GroupIntervalsStep(jobs, r, plating);
      if jobs[r].platingType == plating {
        assert Ids(jobs)[r] == jobs[r].jobId;
        assert jobVars[jobs[r].jobId].interval == IntervalOfRow(jobs, r);
        ivs := ivs + [jobVars[jobs[r].jobId].interval];
      }
    }
    assert jobs[..|jobs|] == jobs;
  }

  /** Lines 16-19: for each plating type in first-appearance order, a
      no-overlap constraint on its interval list when the list has more than
      one entry. */
  method PostNoOverlaps(model: CpModel, jobs: seq<Job>, jobVars: map<JobId, JobVars>)
    requires jobVars == JobVarsOf(jobs) && model.intervals == Intervals(jobs)
    modifies model
    ensures model.domains == old(model.domains) && model.intervals == old(model.intervals)
    ensures model.noOverlaps == old(model.noOverlaps) + NoOverlapLists(jobs, Unique(Types(jobs)))
  {
    var types := Unique(Types(jobs));
    for k := 0 to |types|
      invariant model.domains == old(model.domains) && model.intervals == old(model.intervals)
      invariant model.noOverlaps == old(model.noOverlaps) + NoOverlapLists(jobs, types[..k])
    {
      var plating := types[k];
      var ivs := GroupIntervals(jobs, jobVars, plating);
      NoOverlapListsStep(jobs, types, k);
      IntervalsAt(jobs);
      if |ivs| > 1 {
        model.AddNoOverlap(ivs);
        assert model.noOverlaps == old(model.noOverlaps) + (NoOverlapLists(jobs, types[..k]) + [ivs]);
      }
    }
    assert types[..|types|] == types;
  }

  /** Lines 24-36: one record per key of `job_vars`, in key order, with the
      solver's values of its start and end variables and the plating type of
      the first row with that id. */
  method CollectResults(jobs: seq<Job>, jobVars: map<JobId, JobVars>, keys: seq<JobId>, values: seq<int>)
    returns (results: seq<Record>)
    requires jobVars == JobVarsOf(jobs) && keys == Unique(Ids(jobs)) && |values| == 2 * |jobs|
    ensures results == Extract(jobs, values)
  {
    results := [];
    ghost var all := Extract(jobs, values);
    for k := 0 to |keys|
      invariant results == all[..k]
    {
      var id := keys[k];
      assert id in Ids(jobs) && id in jobVars by {
        JobVarsAt(jobs, id);
      }
      assert jobVars[id].start < |values| && jobVars[id].end < |values| by {
        JobVarsAt(jobs, id);
      }
      var start := values[jobVars[id].start];
      var end := values[jobVars[id].end];
      var plating := jobs[FirstIndex(Ids(jobs), id)].platingType;
      assert Record(id, start, end, plating) == all[k] by {
        JobVarsAt(jobs, id);
        ExtractAt(jobs, values, k);
      }
      assert all[..k + 1] == all[..k] + [all[k]];
      results := results + [Record(id, start, end, plating)];
    }
    assert all[..|keys|] == all;
  }

  /** `schedule_jobs`: build the constraint set, hand it to the solver, and
      read a schedule back only when the solver reports OPTIMAL or FEASIBLE.
      The solver is a parameter; all the model asks of it is that a solution
      status comes with an assignment satisfying the constraint set. */
  method ScheduleJobs(jobs: seq<Job>, solve: ConstraintModel -> Response) returns (results: seq<Record>)
    requires Sound(ModelOf(jobs), solve(ModelOf(jobs)))
    ensures HasSolution(solve(ModelOf(jobs)).status) ==>
      |solve(ModelOf(jobs)).values| == 2 * |jobs| &&
      results == Extract(jobs, solve(ModelOf(jobs)).values) &&
      ValidSchedule(jobs, results)
    ensures !HasSolution(solve(ModelOf(jobs)).status) ==> results == []
  {
    var model := new CpModel();
    var jobVars, keys := CreateJobVars(model, jobs);
    PostNoOverlaps(model, jobs, jobVars);
    assert model.Proto() == ModelOf(jobs);
    var response := solve(model.Proto());
    results := [];
    if HasSolution(response.status) {
      SolutionIsValidSchedule(jobs, response.values);
      results := CollectResults(jobs, jobVars, keys, response.values);
    }
  }
}
