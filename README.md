# Plating job scheduler: `schedule_jobs`

This project models `schedule_jobs`, the scheduling function of a small
plating-shop scheduler, and proves properties of that model in Dafny.
The function reads a job table in which each row has a `JobID`, a `DurationMin` and a
`PlatingType`. It builds a CP-SAT constraint model and asks the solver for a schedule.
It returns one record per job id.

The model follows the function step by step:

- **Job table** (`jobtable.dfy`, module `JobTable`):
  - The table is a `seq<Job>`.
  - `DurationMin` is a `real`.
  - Python's `int()` on it is `Truncate`, which truncates toward zero.
  - `Unique` is the first-appearance order shared by `Series.unique()` and by a dictionary's keys.
  - `FirstIndex` and `LastIndex` locate the first and the last row that carries a value.
- **Constraint model** (`cpsat.dfy`, module `CpSat`):
  - The part of the OR-tools interface that the function uses: `CpModel` is a class whose methods append variables, intervals and no-overlap constraints to its fields.
  - `ConstraintModel` is the finished constraint set.
  - `Satisfies` is what it means for an assignment to meet the set.
  - `Sound` is the promise the solver makes: an `OPTIMAL` or `FEASIBLE` status comes with a satisfying assignment.
- **The function** (`scheduler.dfy`, module `Scheduler`):
  - `ScheduleJobs` is the imperative body. `CreateJobVars` is the row loop that fills `job_vars`. `PostNoOverlaps` and `GroupIntervals` are the per-type grouping loop. `CollectResults` is the result loop.
  - Each method is proved against a specification function of the job table: `ModelOf` for the constraint set, `JobVarsOf` and `Unique` for `job_vars`, and `Extract` for the records.
  - `ModelSemantics` restates the constraint set row by row:
    - every start and end lies in [0, 10080];
    - every row ends int(DurationMin) after it starts;
    - the `job_vars` intervals of every two different rows of one plating type do not overlap.

    With unique job ids those are the rows' own intervals, so rows of different types are never constrained against each other (`DistinctIdsExclusionIsRowwise`). With a repeated id they can be (`DuplicateIdCrossTypeConstraint`).
  - `SolutionIsValidSchedule` proves that the records read back from any solution form a valid schedule.
  - `Feasibility.SolvableIffLoadsFit` (`feasibility.dfy`) gives the condition under which the constraint set has a solution when job ids are unique: every duration fits in a week, and the durations of each plating type add up to at most a week.
- **Solver and numbering:**
  - The solver is the parameter `solve` of `ScheduleJobs`, a function from the constraint set to a response, with `Sound` as its precondition.
  - Variables are numbered in creation order. Row `r` creates start variable `2r`, end variable `2r+1` and interval `r`.

Job ids that occur more than once are modelled as the code treats them:

- `job_vars[id]` keeps the variables of the last row with that id.
- The id still gets one key, in the position of its first row.
- The type's interval list names that one interval once per row.
- The record takes its plating type from the first row.

Two consequences follow:

- `DuplicateIdForcesZeroLength`: two rows with the same id and the same type force that id's interval to have length zero.
- `DuplicateIdCrossTypeConstraint`: a row can be kept apart from a row of another type. In the rows (X, A), (X, B), (Y, A), the list for type A names the interval of (X, B), so (X, B) may not overlap (Y, A).

The description of this system talks about three stages per job (soak, plating, rinse), a working-minute calendar and a horizon of 1.5 times the total workload. None of these appear in `scheduler.py`, which has one interval per row and a fixed one-week horizon. The model follows the code.

## Model

| member | source | states |
|---|---|---|
| JobTable.Truncate | scheduler.py:9 | `int(DurationMin)` truncates toward zero: the result is within one below a non-negative argument, and within one above a negative one |
| JobTable.Unique | scheduler.py:16 | `unique()` holds exactly the values of the column, each once |
| JobTable.UniqueOrder | scheduler.py:27 | distinct values (and dictionary keys) come in the order of their first row |
| JobTable.UniqueOfDistinct | scheduler.py:27 | with no repeated ids, the keys of `job_vars` are the ids in table order |
| JobTable.FirstIndex | scheduler.py:30 | `.values[0]` of the rows with an id is the first row carrying it |
| JobTable.LastIndex | scheduler.py:14 | the entry `job_vars[id]` keeps is written by the last row carrying the id |
| CpSat.CpModel.constructor | scheduler.py:3 | a new model has no variables, intervals or constraints |
| CpSat.CpModel.NewIntVar | scheduler.py:11-12 | appends a variable with bounds [lo, hi], numbered after the existing ones, and changes nothing else |
| CpSat.CpModel.NewIntervalVar | scheduler.py:13 | appends an interval over two existing variables with the given size, and changes nothing else |
| CpSat.CpModel.AddNoOverlap | scheduler.py:19 | appends a no-overlap constraint over existing intervals, and changes nothing else |
| Scheduler.IntervalOfRow | scheduler.py:14-17 | the interval `job_vars` names for a row belongs to a row with the same id |
| Scheduler.GroupRows | scheduler.py:17 | the rows selected for a plating type are exactly the rows of that type, in table order |
| Scheduler.CreateJobVars | scheduler.py:6-14 | the row loop creates two variables bounded to [0, 10080] and one interval of size int(DurationMin) per row; `job_vars` ends as `JobVarsOf` with keys in first-appearance order |
| Scheduler.GroupIntervals | scheduler.py:17 | the list built for a type is the `job_vars` interval of each row of that type, in table order |
| Scheduler.PostNoOverlaps | scheduler.py:16-19 | one no-overlap constraint is added per plating type with more than one row, in first-appearance order of the types, and nothing else changes |
| Scheduler.CollectResults | scheduler.py:27-36 | the result loop yields one record per key of `job_vars`, in key order, with the solver's start and end and the first row's plating type |
| Scheduler.ScheduleJobs | scheduler.py:1-40 | the solver receives exactly `ModelOf(jobs)`; on OPTIMAL or FEASIBLE the result is the extracted records and is a valid schedule; on any other status it is empty |
| Scheduler.ModelSemantics | scheduler.py:11-19 | an assignment satisfies the constraint set if and only if it meets the bounds and lengths of every row and keeps every two rows of one type apart |
| Scheduler.SatisfiesGivesBounds | scheduler.py:11-13 | a solution puts every start and end in [0, 10080] and every end int(DurationMin) after its start, with that size non-negative |
| Scheduler.SatisfiesGivesRows | scheduler.py:11-19 | a solution meets the row constraints and same-type exclusion |
| Scheduler.RowsGiveSatisfies | scheduler.py:11-19 | the row constraints and same-type exclusion together make an assignment a solution |
| Scheduler.GroupPairApart | scheduler.py:17-19 | the no-overlap constraint on a type's list keeps the intervals at any two of its positions apart |
| Scheduler.GroupNoOverlapGivesExclusive | scheduler.py:17-19 | the no-overlap constraint on a type's list keeps any two rows of that type apart |
| Scheduler.ExclusiveGivesGroupNoOverlap | scheduler.py:17-19 | rows of a type kept apart satisfy the no-overlap constraint on that type's list |
| Scheduler.SingleRowTypeUnconstrained | scheduler.py:18-19 | a type with at most one row constrains nothing |
| Scheduler.ListsGiveExclusive | scheduler.py:16-19 | when every posted no-overlap constraint holds, every type is exclusive |
| Scheduler.ExclusiveGivesLists | scheduler.py:16-19 | when every type is exclusive, every posted no-overlap constraint holds |
| Scheduler.EveryTypeExclusive | scheduler.py:16 | the types iterated are all the types in the table, so exclusion for each gives exclusion for all |
| Scheduler.SolutionIsValidSchedule | scheduler.py:26-36 | the records read from any solution have one entry per distinct id in first-appearance order; each start and end lies in [0, 10080], each end is its start plus int(DurationMin), and same-type records do not overlap |
| Scheduler.RecordOfValid | scheduler.py:28-35 | a record carries its id, its first row's type, and the solver's start and end of the id's interval, both in range |
| Scheduler.RecordsApart | scheduler.py:27-35 | the records of two different ids of one type do not overlap |
| Scheduler.DistinctIdsOneRecordPerRow | scheduler.py:27-36 | with unique ids there is one record per row, in table order, with that row's id, type and solver values |
| Scheduler.RowIntervalIsOwn | scheduler.py:14-17 | with unique ids, the interval `job_vars` names for a row is that row's own |
| Scheduler.DistinctIdsExclusionIsRowwise | scheduler.py:14-19 | with unique ids, same-type exclusion holds if and only if every two different rows of one type keep their own intervals apart |
| Scheduler.DuplicateIdCrossTypeConstraint | scheduler.py:14-19 | when row r shares its type with row q and its id with row s, where s is the last row with that id and q is the last row with its own id, every solution keeps s apart from q, whatever the type of s |
| Scheduler.DuplicateIdForcesZeroLength | scheduler.py:14-19 | two rows with one id and one type force that id's interval to length zero in every solution |
| Feasibility.TypeLoadsFit | scheduler.py:4-19 | if the constraint set has a solution, every duration lies in [0, 10080] and, with unique ids, the durations of each type add up to at most 10080 |
| Feasibility.PackedSatisfies | scheduler.py:4-19 | with unique ids, non-negative durations and each type's total at most 10080, placing each type's rows back to back from minute 0 is a solution |
| Feasibility.SolvableIffLoadsFit | scheduler.py:4-19 | with unique ids, the constraint set has a solution if and only if every duration is non-negative and every type's durations add up to at most 10080 |
| Feasibility.DisjointLoadBound | scheduler.py:17-19 | pairwise non-overlapping intervals of non-negative length inside [0, bound] add up to at most bound |
| Feasibility.TypeLoadMonotone | scheduler.py:9 | with non-negative durations, a type's load only grows as rows are counted |

## Left out

- The CP-SAT search (scheduler.py:2, 21-22) is the parameter `solve`. The model assumes only that a solution status comes with a satisfying assignment (`Sound`). It says nothing about when the solver reports `INFEASIBLE` or `UNKNOWN`.
- `solve` is a function, so the model treats the solver as deterministic. The real solver may return a different solution on each call; the model's statements hold for whichever one it returns.
- Variable and interval names (`"start_" + id` and so on, scheduler.py:10-13) only label variables for debugging. They are not modelled.
- pandas plumbing (`iterrows`, the boolean-mask lookup, `DataFrame` construction) becomes sequences: the table is a `seq<Job>` and the result a `seq<Record>`.
- `pd` is never imported in `scheduler.py`, so line 40 raises a NameError before anything is returned. The model returns the list that line would wrap.
- The parameters `tanks_df` and `start_date` (scheduler.py:1) are never read, so they are not modelled.
- The warning printed on failure (scheduler.py:38) is console output and is not modelled.
- `DurationMin` cells that are NaN or not numeric, on which `int()` raises, are not modelled. Every cell is a real number.
- A `DurationMin` whose `int()` lies outside OR-tools' 64-bit integer range is not modelled. On such a cell `NewIntervalVar` raises (scheduler.py:13), so no status is produced. The model has unbounded integers, and the constraint set it builds for that row simply has no solution.
- Missing `PlatingType` or `JobID` cells (pandas NaN) are not modelled. NaN is never equal to itself, which affects three lines:
  - `unique()` keeps a NaN type (scheduler.py:16), but the comparison at scheduler.py:17 never selects its rows, so they get no no-overlap constraint.
  - Records of type NaN may therefore overlap.
  - A NaN `JobID` is never found by the lookups at scheduler.py:17 and :30.

  In the model every cell is a string, and equal strings always match.
- `app.py` (Streamlit interface and CSV input and output) and `utils.py` (Gantt chart rendering) are not part of this model.
