/** When the constraint set of `schedule_jobs` has a solution. With unique
    job ids, a solution exists exactly when every duration is non-negative
    and the durations of each plating type add up to at most the one-week
    horizon: the fixed horizon, not the solver, is what can make a table
    unschedulable. */
module Feasibility {
  import opened JobTable
  import opened CpSat
  import opened Scheduler

  /** The rows of plating type `t`. */
  function RowsOf(jobs: seq<Job>, t: PlatingType): set<nat> {
    set r: nat | r < |jobs| && jobs[r].platingType == t
  }

  /** The sum of int(DurationMin) over the rows in `rows` among the first `n`. */
  function Load(jobs: seq<Job>, rows: set<nat>, n: nat): int
    requires n <= |jobs|
  {
    if n == 0 then 0
    else Load(jobs, rows, n - 1) + (if n - 1 in rows then Truncate(jobs[n - 1].durationMin) else 0)
  }

  /** The minutes of work of plating type `t` among the first `n` rows. */
  function TypeLoad(jobs: seq<Job>, t: PlatingType, n: nat): int
    requires n <= |jobs|
  {
    Load(jobs, RowsOf(jobs, t), n)
  }

  /** Every duration truncates to a non-negative number of minutes. */
  predicate DurationsNonNegative(jobs: seq<Job>) {
    forall r :: 0 <= r < |jobs| ==> 0 <= Truncate(jobs[r].durationMin)
  }

  /** The load of a type grows with the number of rows counted. */
  lemma {:induction false} TypeLoadMonotone(jobs: seq<Job>, t: PlatingType, m: nat, n: nat)
    requires DurationsNonNegative(jobs) && m <= n <= |jobs|
    ensures 0 <= TypeLoad(jobs, t, m) <= TypeLoad(jobs, t, n)
  {
    if m < n {
      TypeLoadMonotone(jobs, t, m, n - 1);
    } else if m > 0 {
      TypeLoadMonotone(jobs, t, m - 1, m);
    }
  }

  /** Row `r` adds its own duration to the load of its type. */
  lemma TypeLoadStep(jobs: seq<Job>, r: nat)
    requires r < |jobs|
    ensures TypeLoad(jobs, jobs[r].platingType, r + 1) ==
      TypeLoad(jobs, jobs[r].platingType, r) + Truncate(jobs[r].durationMin)
  {
    assert r in RowsOf(jobs, jobs[r].platingType);
  }

  /** Taking row `m` out of `rows` takes its duration out of the load. */
  lemma {:induction false} LoadRemove(jobs: seq<Job>, rows: set<nat>, m: nat, n: nat)
    requires m in rows && m < n <= |jobs|
    ensures Load(jobs, rows, n) == Load(jobs, rows - {m}, n) + Truncate(jobs[m].durationMin)
  {
    if n - 1 != m {
      LoadRemove(jobs, rows, m, n - 1);
    } else {
      LoadOutside(jobs, rows, m, m);
    }
  }

  /** Rows at or after `m` do not count towards the load of the first `n`
      rows when `n <= m`, so removing `m` changes nothing there. */
  lemma {:induction false} LoadOutside(jobs: seq<Job>, rows: set<nat>, m: nat, n: nat)
    requires n <= m && n <= |jobs|
    ensures Load(jobs, rows, n) == Load(jobs, rows - {m}, n)
  {
    if n > 0 {
      LoadOutside(jobs, rows, m, n - 1);
    }
  }

  // ---------------------------------------------------------------------
  // A solution bounds the load of every type
  // ---------------------------------------------------------------------

  /** A row of `rows` with the largest start plus end. */
  lemma {:induction false} LatestRow(a: seq<int>, rows: set<nat>) returns (m: nat)
    requires rows != {} && forall r :: r in rows ==> 2 * r + 1 < |a|
    ensures m in rows
    ensures forall r :: r in rows ==> a[2 * r] + a[2 * r + 1] <= a[2 * m] + a[2 * m + 1]
    decreases rows
  {
    var x :| x in rows;
    if rows == {x} {
      m := x;
    } else {
      var m' := LatestRow(a, rows - {x});
      m := if a[2 * x] + a[2 * x + 1] <= a[2 * m'] + a[2 * m' + 1] then m' else x;
    }
  }

  /** Pairwise disjoint intervals of non-negative length, all inside
      [0, bound], add up to at most `bound`. */
  lemma {:induction false} DisjointLoadBound(jobs: seq<Job>, a: seq<int>, rows: set<nat>, bound: int)
    requires |a| == 2 * |jobs| && 0 <= bound
    requires forall r :: r in rows ==>
      r < |jobs| && 0 <= a[2 * r] && 0 <= Truncate(jobs[r].durationMin) &&
      a[2 * r + 1] == a[2 * r] + Truncate(jobs[r].durationMin) && a[2 * r + 1] <= bound
    requires forall r, s :: r in rows && s in rows && r != s ==> Apart(a, r, s)
    ensures Load(jobs, rows, |jobs|) <= bound
    decreases rows
  {
    if rows == {} {
      LoadEmpty(jobs, rows, |jobs|);
    } else {
      var m := LatestRow(a, rows);
      var rest := rows - {m};
      forall r | r in rest ensures a[2 * r + 1] <= a[2 * m] {
        assert Apart(a, r, m);
      }
      DisjointLoadBound(jobs, a, rest, a[2 * m]);
      LoadRemove(jobs, rows, m, |jobs|);
    }
  }

  /** Nothing adds up to nothing. */
  lemma {:induction false} LoadEmpty(jobs: seq<Job>, rows: set<nat>, n: nat)
    requires rows == {} && n <= |jobs|
    ensures Load(jobs, rows, n) == 0
  {
    if n > 0 {
      LoadEmpty(jobs, rows, n - 1);
    }
  }

  /** Any solution of the constraint set gives every row a duration in
      [0, Horizon]; with unique ids, the durations of each plating type add
      up to at most Horizon. */
  lemma TypeLoadsFit(jobs: seq<Job>, a: seq<int>)
    requires Satisfies(ModelOf(jobs), a)
    ensures forall r :: 0 <= r < |jobs| ==> 0 <= Truncate(jobs[r].durationMin) <= Horizon
    ensures DistinctIds(jobs) ==> forall t :: TypeLoad(jobs, t, |jobs|) <= Horizon
  {
    SatisfiesGivesRows(jobs, a);
    if DistinctIds(jobs) {
      forall t ensures TypeLoad(jobs, t, |jobs|) <= Horizon {
        var rows := RowsOf(jobs, t);
        forall r, s | r in rows && s in rows && r != s ensures Apart(a, r, s) {
          RowIntervalIsOwn(jobs, r);
          RowIntervalIsOwn(jobs, s);
        }
        DisjointLoadBound(jobs, a, rows, Horizon);
      }
    }
  }

  // ---------------------------------------------------------------------
  // A load that fits gives a solution
  // ---------------------------------------------------------------------

  /** Each type's rows placed back to back from minute 0, in table order. */
  function Packed(jobs: seq<Job>): (a: seq<int>)
    ensures |a| == 2 * |jobs|
  {
    seq(2 * |jobs|, v requires 0 <= v < 2 * |jobs| =>
      TypeLoad(jobs, jobs[v / 2].platingType, v / 2 + v % 2))
  }

  /** Row `r` starts after the earlier rows of its type and ends after itself. */
  lemma PackedAt(jobs: seq<Job>, r: nat)
    requires r < |jobs|
    ensures Packed(jobs)[2 * r] == TypeLoad(jobs, jobs[r].platingType, r)
    ensures Packed(jobs)[2 * r + 1] == TypeLoad(jobs, jobs[r].platingType, r + 1)
  {
    assert (2 * r) / 2 == r && (2 * r + 1) / 2 == r;
  }

  /** With unique ids, non-negative durations and every type's load within
      the horizon, the back-to-back placement is a solution. */
  lemma PackedSatisfies(jobs: seq<Job>)
    requires DistinctIds(jobs) && DurationsNonNegative(jobs)
    requires forall t :: TypeLoad(jobs, t, |jobs|) <= Horizon
    ensures Satisfies(ModelOf(jobs), Packed(jobs))
  {
    PackedRowsHold(jobs);
    PackedExclusive(jobs);
    RowsGiveSatisfies(jobs, Packed(jobs));
  }

  /** The back-to-back placement keeps every row within the horizon and
      every row's length. */
  lemma PackedRowsHold(jobs: seq<Job>)
    requires DurationsNonNegative(jobs)
    requires forall t :: TypeLoad(jobs, t, |jobs|) <= Horizon
    ensures RowsHold(jobs, Packed(jobs))
  {
    var a := Packed(jobs);
    forall r | 0 <= r < |jobs|
      ensures 0 <= a[2 * r] <= Horizon && 0 <= a[2 * r + 1] <= Horizon
      ensures a[2 * r + 1] == a[2 * r] + Truncate(jobs[r].durationMin)
    {
      var t := jobs[r].platingType;
      PackedAt(jobs, r);
      TypeLoadMonotone(jobs, t, r, r + 1);
      TypeLoadMonotone(jobs, t, r + 1, |jobs|);
      TypeLoadStep(jobs, r);
    }
    forall v | 0 <= v < |a| ensures 0 <= a[v] <= Horizon {
      var r := v / 2;
      assert v == 2 * r || v == 2 * r + 1;
    }
  }

  /** With unique ids, the back-to-back placement keeps two rows of one type
      apart: the earlier row ends no later than the later one starts. */
  lemma PackedExclusive(jobs: seq<Job>)
    requires DistinctIds(jobs) && DurationsNonNegative(jobs)
    ensures SameTypeExclusive(jobs, Packed(jobs))
  {
    var a := Packed(jobs);
    forall r, s | 0 <= r < |jobs| && 0 <= s < |jobs| && r != s &&
                  jobs[r].platingType == jobs[s].platingType
      ensures Apart(a, IntervalOfRow(jobs, r), IntervalOfRow(jobs, s))
    {
      RowIntervalIsOwn(jobs, r);
      RowIntervalIsOwn(jobs, s);
      PackedRowsApart(jobs, r, s);
    }
  }

  /** Two rows of one type are apart under the back-to-back placement. */
  lemma PackedRowsApart(jobs: seq<Job>, r: nat, s: nat)
    requires DurationsNonNegative(jobs)
    requires r < |jobs| && s < |jobs| && r != s && jobs[r].platingType == jobs[s].platingType
    ensures Apart(Packed(jobs), r, s)
  {
    var a, t := Packed(jobs), jobs[r].platingType;
    PackedAt(jobs, r);
    PackedAt(jobs, s);
    if r < s {
      TypeLoadMonotone(jobs, t, r + 1, s);
      assert a[2 * r + 1] <= a[2 * s];
    } else {
      TypeLoadMonotone(jobs, t, s + 1, r);
      assert a[2 * s + 1] <= a[2 * r];
    }
  }

  /** With unique ids, the constraint set has a solution if and only if
      every duration is non-negative and every plating type's durations add
      up to at most one week. */
  lemma SolvableIffLoadsFit(jobs: seq<Job>)
    requires DistinctIds(jobs)
    ensures (exists a :: Satisfies(ModelOf(jobs), a)) <==>
      DurationsNonNegative(jobs) && forall t :: TypeLoad(jobs, t, |jobs|) <= Horizon
  {
    if a :| Satisfies(ModelOf(jobs), a) {
      TypeLoadsFit(jobs, a);
    }
    if DurationsNonNegative(jobs) && forall t :: TypeLoad(jobs, t, |jobs|) <= Horizon {
      PackedSatisfies(jobs);
    }
  }
}
