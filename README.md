# Resident scheduling: the constraint model and the solution printer

The scheduler builds a CP-SAT model for assigning medical residents to
rotations week by week. It creates one boolean `shift[r, s, w]` per resident
`r`, rotation `s` and week `w`. It splits the residents into cohorts (two
primary-care cohorts, a chief cohort, two normal cohorts). It splits the hard
services into groups, each with a run rule and a staffing rule. Then it adds
the constraints each cohort, group and resident gets. A solution callback
tabulates chosen solutions: a resident-by-week table of rotation numbers and a
rotation-by-week table of head counts. It counts every solution it is shown.

This project models these parts:

- `cp_sat.dfy` (module `CpSat`): the model being built.
  - `Var` is a decision variable. `Constraint` is one record that `Add` appends.
  - `Sat` says what it means for an assignment to satisfy a linear record.
  - `CpModel` is a class whose `variables` and `constraints` sequences its methods extend.
  - `Span` and `Grid` are the record lists that one or two nested `for` loops add.
- `partition.dfy` (module `Partition`): blocks `range(sum(sizes[:i]), sum(sizes[:i]) + sizes[i])`.
  They are adjacent, disjoint, inside the total, and they cover it.
- `scheduling.dfy` (module `Scheduling`): the builder itself.
  - `enforce_primary_care`, `enforce_chief` and `apply_resident_rules` are module-level methods that take the model `m` and add records to it.
  - `CreateSchedule` is a class. Its constructor fills the `shift` dictionary in the triple loop.
  - Each rule block of `main` is a method whose contract gives the exact record list it appends.
  - `BuildModel` (the body of `main` up to the solver call) appends `MainRecords(R, S, W, E)`.
- `schedule_properties.dfy` (module `ScheduleProperties`): what every assignment satisfying `MainRecords` has.
- `printer.dfy` (module `Printer`): the solution callback as a class.
  - Its tables are fresh `array2`s filled in the source's loop order.
  - It is specified by `LastRotation` and `HeadCount`. The lemmas tie these to the scheduling model.

The calls into the constraint-encoding helpers (`add_hard_sequence_len_constraint`,
`add_only_2_or_4_sequence_constraint`, `add_soft_sum_constraint`) are
records that keep their `works` list and parameters. They have no meaning
here, because `constraints.py` is not part of this model. `Sat` is `true` for them.

Staffing rule 40 asks for at least 4 residents in each week of
`range(num_weeks // 2)` (scheduling.py:119-121), the first half of the
weeks, not alternate weeks: see `Scheduling.CreateSchedule.AddStaffingRules`,
`ScheduleProperties.NightFloatFirstHalf` and `ScheduleProperties.StaffingMinimum`.

## Model

| member | source | states |
|---|---|---|
| `CpSat.CpModel.constructor` | scheduling.py:68 | a new model has no variables and no constraints |
| `CpSat.CpModel.NewBoolVar` | scheduling.py:104 | appends the new variable to the model's variables; constraints unchanged |
| `CpSat.CpModel.Add` | scheduling.py:33 | appends the record to the model's constraints; variables unchanged |
| `CpSat.CountPositive` | scheduling.py:143 | a sum of booleans is positive iff one of them is true |
| `CpSat.CountAll` | scheduling.py:40 | a sum of booleans equals their number iff all are true |
| `CpSat.CountAtMostOne` | scheduling.py:149 | under a sum of at most 1, two true positions are the same position |
| `Partition.Adjacent` | scheduling.py:56-57 | block i + 1 starts where block i ends; the last block ends at `sum(sizes)` |
| `Partition.StartMonotone` | scheduling.py:56 | with non-negative sizes, block starts never decrease |
| `Partition.Disjoint` | scheduling.py:55-57 | with non-negative sizes, an earlier block ends before a later one starts |
| `Partition.UniqueBlock` | scheduling.py:55-57 | with non-negative sizes, no index lies in two blocks |
| `Partition.Cover` | scheduling.py:55-57 | with non-negative sizes, every index of `range(sum(sizes))` lies in some block |
| `Partition.InsideTotal` | scheduling.py:55-57 | every block lies within `range(sum(sizes))` |
| `Scheduling.WeekWorks` | scheduling.py:110 | reading resident r's weeks on rotation s out of a complete `shift` gives exactly `Shift(r, s, 0 .. W-1)` |
| `Scheduling.RotationWorks` | scheduling.py:143 | reading resident r's rotations in week w gives exactly `Shift(r, 0 .. S-1, w)` |
| `Scheduling.ResidentWorks` | scheduling.py:121 | reading the residents on rotation s in week w gives exactly `Shift(0 .. R-1, s, w)` |
| `Scheduling.ChiefWindowWorks` | scheduling.py:40 | reading the chief window gives exactly the chief-service variables of weeks 8 and 9 |
| `Scheduling.AllWorks` | scheduling.py:179 | reading all of resident r's cells, week-major, gives `AllWorkVars`: exactly the S * W cells of r (see `AllWorkVarsCells`) |
| `Scheduling.EnforcePrimaryCare` | scheduling.py:30-33 | appends one "at least MIN_PRIMARY_CARE_WKS weeks on primary care" record per resident of the range, in order |
| `Scheduling.EnforceChief` | scheduling.py:36-40 | appends one "at least 2 of weeks 8, 9 on the chief service" record per resident of the range, whatever `all_weeks` is |
| `Scheduling.Missing` | scheduling.py:59 | a label lacking one character of a pattern does not contain the pattern |
| `Scheduling.LabelTests` | scheduling.py:53-62 | `'pcare'` is in exactly the first two labels and `'chief'` only in the third |
| `Scheduling.CohortBounds` | scheduling.py:45-52 | the cohorts are [0, 4), [4, 6), [6, 10), [10, 44) and [44, num_residents) |
| `Scheduling.CohortFacts` | scheduling.py:55-62 | cohort i passes the pcare test iff i < 2, the chief test iff i == 2; those cohorts lie in residents 0 to 9 |
| `Scheduling.ApplyResidentRules` | scheduling.py:43-62 | appends exactly `ResidentRecords(num_residents, all_weeks)`: each cohort's records by its label, cohort by cohort; reads only residents 0 to 9 |
| `Scheduling.GridStep` | scheduling.py:101-104 | creating cell (r, s, w) keeps `shift` and the variables equal to exactly the cells created so far, each bound to its own variable and created once |
| `Scheduling.CreateSchedule.constructor` | scheduling.py:66-104 | sets the configuration (77 residents, 20 rotations, 12 weeks, 6 electives, group sizes 1, 1, 2, 2, 8); `shift` has exactly the cells of the grid; the variables are exactly the grid's cells, each once |
| `Scheduling.CreateSchedule.ApplyServiceRules` | scheduling.py:106-124 | appends the group's run records for every (resident, service), then its staffing records for every (service, staffed week) |
| `Scheduling.CreateSchedule.AddRunRules` | scheduling.py:108-115 | appends, per (resident, service), the 2-or-4 record with hard max 4 when the run rule is 24, else the exact-length record |
| `Scheduling.CreateSchedule.AddRunRulesOf` | scheduling.py:109-115 | for one resident, appends the run record of every service of the group, in service order |
| `Scheduling.CreateSchedule.AddStaffingRules` | scheduling.py:118-124 | appends, per service, "at least 4" for weeks `range(W // 2)` under rule 40, else "at least n" for every week |
| `Scheduling.CreateSchedule.AddStaffingOf` | scheduling.py:119-124 | for one service, appends one staffing minimum per staffed week: 4 on weeks `range(W // 2)` under rule 40, else n on every week |
| `Scheduling.CreateSchedule.AddElectiveBlocks` | scheduling.py:129-133 | appends one exact-length-2 record per (resident, elective) |
| `Scheduling.CreateSchedule.AddElectiveBlocksOf` | scheduling.py:131-133 | for one resident, appends the exact-length-2 record of every elective |
| `Scheduling.CreateSchedule.AddOnRotation` | scheduling.py:135-143 | creates `on_rotation[r, w]` for every (resident, week), then links each to the sum of the resident's rotations that week |
| `Scheduling.CreateSchedule.CreateOnRotation` | scheduling.py:136-139 | appends exactly the `on_rotation` variables, resident-major; the dictionary binds each (r, w) to its own variable |
| `Scheduling.CreateSchedule.CreateOnRotationOf` | scheduling.py:138-139 | for one resident, creates `on_rotation[r, w]` for every week and extends the dictionary to bind each of them, keeping earlier bindings |
| `Scheduling.CreateSchedule.LinkOnRotation` | scheduling.py:141-143 | appends `on_rotation[r, w] == sum(shift[r, s, w] for s)` for every (resident, week) |
| `Scheduling.CreateSchedule.LinkOnRotationOf` | scheduling.py:142-143 | for one resident, appends the link of `on_rotation[r, w]` to the week's rotation sum for every week |
| `Scheduling.CreateSchedule.AddOneRotationPerWeek` | scheduling.py:146-149 | appends "at most one rotation" for every (resident, week) |
| `Scheduling.CreateSchedule.AddOneRotationOf` | scheduling.py:148-149 | for one resident, appends "at most one rotation" for every week |
| `Scheduling.CreateSchedule.AddHardServiceCaps` | scheduling.py:151-154 | appends "at most 4 weeks" for every (hard service, resident), service-major |
| `Scheduling.CreateSchedule.AddElectiveCaps` | scheduling.py:156-159 | appends "at most 2 weeks" for every (elective, resident), elective-major |
| `Scheduling.CreateSchedule.AddCaps` | scheduling.py:151-159 | the shared shape of both caps: for every rotation of a range and every resident, appends "at most cap weeks on that rotation", rotation-major |
| `Scheduling.CreateSchedule.AddCapsOf` | scheduling.py:153-154 | for one rotation, appends "at most cap weeks on it" for every resident |
| `Scheduling.CreateSchedule.ApplyServiceGroups` | scheduling.py:162-169 | appends each group's records in order, group i being `range(E + sum(service_breakdown[:i]), ... + service_breakdown[i])` with rules `wk_rules[i]`, `res_rules[i]` |
| `Scheduling.CreateSchedule.AddRestRules` | scheduling.py:172-181 | appends one soft-sum record (10, 11, 10, 11, 12, 10) per resident over all of the resident's cells |
| `Scheduling.CreateSchedule.BuildModel` | scheduling.py:126-181 | appends exactly `MainRecords`: the cohort, elective-block, link, one-rotation, cap, group and rest records, in source order; of the variables `main` creates itself, only the `on_rotation` ones |
| `Scheduling.ServiceGroupBounds` | scheduling.py:162-168 | the groups start at E, E+1, E+2, E+4, E+6 and the last ends at num_rotations |
| `Scheduling.GroupInRange` | scheduling.py:84-95 | with num_rotations >= E + 6, every group lies within the hard services `range(E, num_rotations)` |
| `ScheduleProperties.AllWorkVarsCells` | scheduling.py:179 | the rest rule's list has S * W entries and holds exactly resident r's cells |
| `ScheduleProperties.OneRotationPerWeek` | scheduling.py:146-149 | in a solution, a resident on rotations s1 and s2 in the same week has s1 == s2 |
| `ScheduleProperties.OnRotationMeaning` | scheduling.py:135-143 | in a solution, `on_rotation[r, w]` is true iff resident r is on some rotation in week w |
| `ScheduleProperties.LinksBoundRotations` | scheduling.py:141-143 | the link records alone already allow at most one rotation per resident and week |
| `ScheduleProperties.HardServiceCap` | scheduling.py:151-154 | in a solution, a resident is on each hard service at most 4 weeks |
| `ScheduleProperties.ElectiveCap` | scheduling.py:156-159 | in a solution, a resident is on each elective at most 2 weeks |
| `ScheduleProperties.ResidentRecordsShape` | scheduling.py:55-62 | the cohort records are the primary-care minimums of residents 0-3 and 4-5, then the chief windows of residents 6-9 |
| `ScheduleProperties.ResidentRecordsExactly` | scheduling.py:53-62 | a record is a cohort record iff it is the primary-care minimum of a resident in 0-5 or the chief window of one in 6-9; the norm cohorts get none |
| `ScheduleProperties.PrimaryCareMinimum` | scheduling.py:25-33 | in a solution, each primary-care resident is on primary care at least 2 weeks |
| `ScheduleProperties.ChiefWeeks` | scheduling.py:36-40 | in a solution, each chief is on the chief service in both week 8 and week 9 |
| `ScheduleProperties.CohortsPartition` | scheduling.py:45-57 | with at least 44 residents, every resident is in exactly one cohort |
| `ScheduleProperties.CohortsOverrun` | scheduling.py:49 | with fewer than 44 residents the last cohort's size is negative and cohort 3 reaches past the last resident |
| `ScheduleProperties.ServiceGroupsPartition` | scheduling.py:162-168 | with num_rotations >= E + 6, every hard service is in exactly one service group |
| `ScheduleProperties.ServiceRecordsExactly` | scheduling.py:106-124 | a record is one of a group's iff it is a run record of some (resident, service) with the 24 / other dispatch, or a staffing minimum of some (service, staffed week) |
| `ScheduleProperties.NightFloatFirstHalf` | scheduling.py:119-121 | under rule 40 every staffing record asks for 4 residents, in a week of the first half |
| `ScheduleProperties.GroupRecordsHas` | scheduling.py:166-169 | each group's records are among the records of the group loop |
| `ScheduleProperties.GroupStaffing` | scheduling.py:117-124 | in a solution, each service of group i has at least the group's minimum on each staffed week |
| `ScheduleProperties.StaffingMinimum` | scheduling.py:162-169 | in a solution: at least 4 on the first hard service; 4 on night float in the first half of the weeks; 4 on the next two; 2 on the next two; 1 on the rest |
| `Printer.LastRotationSpec` | printer.py:23-27 | a resident-by-week cell is blank iff no rotation is true; else it is a true rotation with no true rotation after it |
| `Printer.LastRotationExact` | printer.py:23-27 | with at most one rotation per resident and week, the cell is `s` iff rotation s is true |
| `Printer.HeadCountIsCount` | printer.py:31-35 | a head count equals the number of true `shift[r, s, w]` over residents |
| `Printer.RowHitsIsCount` | printer.py:23-27 | the number of rotations resident r is on in week w, read through `shifts`, equals the count of true `shift[r, s, w]` over rotations |
| `Printer.RowHitsAtMostOne` | printer.py:23-35 | with at most one rotation, a resident is counted in one rotation that week iff their cell is not blank |
| `Printer.ColumnTotalStep` | printer.py:31-35 | one more resident adds exactly that resident's row to a week's column total |
| `Printer.ColumnTotalZero` | printer.py:20 | with no residents, every column total is 0 |
| `Printer.ColumnTotalIsAssigned` | printer.py:23-35 | with at most one rotation, a week's head counts sum to the number of non-blank cells that week |
| `Printer.SolutionCell` | printer.py:23-27 | for a solution of the model, the cell of (r, w) is `s` iff resident r is on rotation s in week w |
| `Printer.SolutionColumn` | printer.py:31-35 | for a solution of the model, each week's head counts sum to the residents on some rotation |
| `Printer.SolutionHeadCount` | printer.py:31-35 | for a solution of the model, the head counts of the hard services meet their staffing minimums |
| `Printer.ResidentsPartialSolutionPrinter.constructor` | printer.py:8-16 | keeps the grid and sizes, the requested solution numbers as a set, and a counter at 0 |
| `Printer.ResidentsPartialSolutionPrinter.OnSolutionCallback` | printer.py:18-39 | tables of sizes R x W and S x W; filled iff the counter is a requested number, else blank and zero; the counter goes up by exactly 1 |
| `Printer.ResidentsPartialSolutionPrinter.FillRotations` | printer.py:23-27 | each cell ends as the last true rotation of its resident and week |
| `Printer.ResidentsPartialSolutionPrinter.FillHeadCounts` | printer.py:31-35 | each cell ends as the number of residents on its rotation that week |
| `Printer.ResidentsPartialSolutionPrinter.SolutionCount` | printer.py:41-42 | returns the number of callbacks so far |

## Left out

- The encoding helpers of `constraints.py` (`add_hard_sequence_len_constraint`, `add_only_2_or_4_sequence_constraint`, `add_soft_sum_constraint`, `negated_bounded_span`, `add_soft_sequence_constraint`): constraints.py is not part of this model. Their calls are records with no meaning, so no property of run lengths or rest weeks is claimed. The variables and constraints these helpers add to the model are not modelled: `m.variables` and `m.constraints` hold only what scheduling.py adds directly, with one record per helper call.
- The solver (`CpSolver`, `SearchForAllSolutions`, `Solve`, its parameters and status) and the construction of the solution printer in `main`: these are foreign library calls with search semantics. The printer is modelled on an assignment given as input.
- The objective: the penalty lists are never filled, the soft-sum return values are discarded and `Minimize` is commented out.
- The `min_rotations_per_resident` setting and the commented-out rule that uses it: neither is ever applied.
- Command-line parsing of the time limit, and every `print`, including pandas `DataFrame` output: these are I/O. The printer's tables are returned instead of printed.
- Variable names: a variable is identified by what it stands for (`Shift(r, s, w)`, `OnRotation(r, w)`), so names are distinct per cell by construction. The constraint-name string passed to `add_soft_sum_constraint` is not modelled.
- The printer's `sol` field: it is never used.
- `CpSolverSolutionCallback` registration and `Value`: `Value` is a given total function from variables to booleans.
- Scheduling.CreateSchedule.Valid: the builder methods require `num_rotations >= num_electives + 6`, at least 10 residents and at least 10 weeks, which the constructor establishes. The source makes no such check; with smaller values its dictionary lookups fail.
