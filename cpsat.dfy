/** The fragment of the CP-SAT constraint-programming interface that the
    scheduler uses: bounded integer variables, fixed-size interval
    constraints, no-overlap (disjunctive) constraints, and a solver
    response. The model object is mutable, as in the library; its value
    (`ConstraintModel`) is what a solver is handed. */
module CpSat {

  /** The bounds of one integer variable: `lo <= value <= hi`. */
  datatype Domain = Domain(lo: int, hi: int)

  /** An interval over two variables (given by index) with a constant size. */
  datatype IntervalCt = IntervalCt(start: nat, size: int, end: nat)

  /** The constraint set handed to the solver. Variables, intervals and
      no-overlap constraints are numbered in the order they were created. */
  datatype ConstraintModel = ConstraintModel(
    domains: seq<Domain>,
    intervals: seq<IntervalCt>,
    noOverlaps: seq<seq<nat>>)

  /** The outcome classes of `CpSolver.Solve`. */
  datatype Status = Unknown | ModelInvalid | Feasible | Infeasible | Optimal

  /** The two statuses under which the solver holds a solution. */
  predicate HasSolution(s: Status) {
    s == Optimal || s == Feasible
  }

  /** What `Solve` leaves behind: a status and, when it found a solution,
      one value per variable (`solver.Value(v)` is `values[v]`). */
  datatype Response = Response(status: Status, values: seq<int>)

  /** An interval holds when its size is non-negative and its end lies
      `size` after its start. */
  predicate IntervalHolds(iv: IntervalCt, a: seq<int>)
    requires iv.start < |a| && iv.end < |a|
  {
    0 <= iv.size && a[iv.end] == a[iv.start] + iv.size
  }

  /** Two intervals are disjoint when one ends no later than the other starts. */
  predicate Disjoint(x: IntervalCt, y: IntervalCt, a: seq<int>)
    requires x.start < |a| && x.end < |a| && y.start < |a| && y.end < |a|
  {
    a[x.end] <= a[y.start] || a[y.end] <= a[x.start]
  }

  /** Every variable an interval mentions exists in the assignment. */
  predicate IntervalInRange(iv: IntervalCt, a: seq<int>) {
    iv.start < |a| && iv.end < |a|
  }

  /** A no-overlap constraint over the listed intervals holds when every two
      entries at different positions of the list are disjoint (an interval
      listed twice must then be disjoint from itself, i.e. have size zero). */
  predicate NoOverlapHolds(intervals: seq<IntervalCt>, ivs: seq<nat>, a: seq<int>) {
    (forall p :: 0 <= p < |ivs| ==>
       ivs[p] < |intervals| && IntervalInRange(intervals[ivs[p]], a)) &&
    forall p, q :: 0 <= p < |ivs| && 0 <= q < |ivs| && p != q ==>
      Disjoint(intervals[ivs[p]], intervals[ivs[q]], a)
  }

  /** `a` gives every variable of `m` a value that meets all its constraints. */
  predicate Satisfies(m: ConstraintModel, a: seq<int>) {
    && |a| == |m.domains|
    && (forall v :: 0 <= v < |a| ==> m.domains[v].lo <= a[v] <= m.domains[v].hi)
    && (forall i :: 0 <= i < |m.intervals| ==>
          IntervalInRange(m.intervals[i], a) && IntervalHolds(m.intervals[i], a))
    && (forall ivs :: ivs in m.noOverlaps ==> NoOverlapHolds(m.intervals, ivs, a))
  }

  /** The promise the solver makes: a solution status comes with an
      assignment that satisfies the model it was given. */
  predicate Sound(m: ConstraintModel, resp: Response) {
    HasSolution(resp.status) ==> Satisfies(m, resp.values)
  }

  /** `cp_model.CpModel()`: a model that is filled in place. */
  class CpModel {
    var domains: seq<Domain>
    var intervals: seq<IntervalCt>
    var noOverlaps: seq<seq<nat>>

    /** The constraint set built so far. */
    function Proto(): ConstraintModel
      reads this
    {
      ConstraintModel(domains, intervals, noOverlaps)
    }

    constructor ()
      ensures Proto() == ConstraintModel([], [], [])
    {
      domains, intervals, noOverlaps := [], [], [];
    }

    /** `NewIntVar(lo, hi, name)`: a fresh variable, numbered after the others. */
    method NewIntVar(lo: int, hi: int) returns (v: nat)
      modifies this
      ensures v == |old(domains)|
      ensures domains == old(domains) + [Domain(lo, hi)]
      ensures intervals == old(intervals) && noOverlaps == old(noOverlaps)
    {
      v := |domains|;
      domains := domains + [Domain(lo, hi)];
    }

    /** `NewIntervalVar(start, size, end, name)` over two existing variables. */
    method NewIntervalVar(start: nat, size: int, end: nat) returns (iv: nat)
      requires start < |domains| && end < |domains|
      modifies this
      ensures iv == |old(intervals)|
      ensures intervals == old(intervals) + [IntervalCt(start, size, end)]
      ensures domains == old(domains) && noOverlaps == old(noOverlaps)
    {
      iv := |intervals|;
      intervals := intervals + [IntervalCt(start, size, end)];
    }

    /** `AddNoOverlap(ivs)` over existing intervals. */
    method AddNoOverlap(ivs: seq<nat>)
      requires forall p :: 0 <= p < |ivs| ==> ivs[p] < |intervals|
      modifies this
      ensures noOverlaps == old(noOverlaps) + [ivs]
      ensures domains == old(domains) && intervals == old(intervals)
    {
      noOverlaps := noOverlaps + [ivs];
    }
  }
}
