/** The solution callback: on the solutions it was asked to show it builds
    two tables, resident by week (the rotation each resident is on) and
    rotation by week (how many residents are on it), and it counts every
    solution the solver reports. */
module Printer {
  import opened CpSat
  import opened Scheduling
  import opened ScheduleProperties

  /** A cell of the resident-by-week table: empty, or a rotation number. */
  datatype Cell = Blank | Rot(s: int)

  /** Whether resident r is on rotation s in week w in the current solution. */
  type OnGrid = (int, int, int) -> bool

  /** The solution's grid, read through the `shifts` dictionary. */
  function OnFn(shifts: ShiftMap, value: Var -> bool): OnGrid
  {
    (r, s, w) => (r, s, w) in shifts && value(shifts[(r, s, w)])
  }

  /** The resident-by-week cell: the last of rotations `0 .. S - 1` the
      resident is on that week, or Blank. */
  function LastRotation(on: OnGrid, r: int, w: int, S: int): Cell
    decreases S
  {
    if S <= 0 then Blank
    else if on(r, S - 1, w) then Rot(S - 1)
    else LastRotation(on, r, w, S - 1)
  }

  /** The rotation-by-week cell: how many of residents `0 .. R - 1` are on
      rotation s in week w. */
  function HeadCount(on: OnGrid, s: int, w: int, R: int): nat
    decreases R
  {
    if R <= 0 then 0
    else HeadCount(on, s, w, R - 1) + (if on(R - 1, s, w) then 1 else 0)
  }

  /** Number of rotations among `0 .. S - 1` resident r is on in week w. */
  function RowHits(on: OnGrid, r: int, w: int, S: int): nat
    decreases S
  {
    if S <= 0 then 0
    else RowHits(on, r, w, S - 1) + (if on(r, S - 1, w) then 1 else 0)
  }

  /** Sum of a week's column of the rotation-by-week table. */
  function ColumnTotal(on: OnGrid, w: int, S: int, R: int): nat
    decreases S
  {
    if S <= 0 then 0
    else ColumnTotal(on, w, S - 1, R) + HeadCount(on, S - 1, w, R)
  }

  /** Number of non-blank cells in a week's column of the resident-by-week table. */
  function Assigned(on: OnGrid, w: int, S: int, R: int): nat
    decreases R
  {
    if R <= 0 then 0
    else Assigned(on, w, S, R - 1) + (if LastRotation(on, R - 1, w, S) != Blank then 1 else 0)
  }

  /** No resident of `0 .. R - 1` is on two of rotations `0 .. S - 1` in week w. */
  predicate OneRotationIn(on: OnGrid, w: int, S: int, R: int)
  {
    forall r, s1, s2 :: 0 <= r < R && 0 <= s1 < S && 0 <= s2 < S && on(r, s1, w) && on(r, s2, w) ==> s1 == s2
  }

  // ---------------------------------------------------------------------
  // The cells

  /** A cell is Blank exactly when the resident is on no rotation that week;
      otherwise it names a rotation the resident is on, and the resident is
      on no later one. */
  lemma {:induction false} LastRotationSpec(on: OnGrid, r: int, w: int, S: int)
    ensures LastRotation(on, r, w, S) == Blank <==> forall s :: 0 <= s < S ==> !on(r, s, w)
    ensures LastRotation(on, r, w, S).Rot? ==>
      var t := LastRotation(on, r, w, S).s;
      0 <= t < S && on(r, t, w) && forall s :: t < s < S ==> !on(r, s, w)
    decreases S
  {
    if S > 0 {
      LastRotationSpec(on, r, w, S - 1);
    }
  }

  /** When the resident is on at most one rotation a week, the cell names
      exactly the rotation the resident is on. */
  lemma LastRotationExact(on: OnGrid, r: int, w: int, S: int, R: int, s: int)
    requires OneRotationIn(on, w, S, R)
    requires 0 <= r < R && 0 <= s < S
    ensures LastRotation(on, r, w, S) == Rot(s) <==> on(r, s, w)
  {
    LastRotationSpec(on, r, w, S);
  }

  /** The head count is the number of rotation-s variables of the week that
      are true, when `shifts` is the whole grid. */
  lemma {:induction false} HeadCountIsCount(shifts: ShiftMap, value: Var -> bool,
                                            R: nat, S: int, W: int, s: int, w: int)
    requires ShiftTable(shifts, R, S, W)
    requires 0 <= s < S && 0 <= w < W
    ensures HeadCount(OnFn(shifts, value), s, w, R) == Count(value, ResidentVars(R, s, w))
  {
    if R > 0 {
      assert ShiftTable(shifts, R - 1, S, W);
      HeadCountIsCount(shifts, value, R - 1, S, W, s, w);
      assert ResidentVars(R, s, w)[..R - 1] == ResidentVars(R - 1, s, w);
    }
  }

  /** A resident's hits in a week are the count of that resident's true
      `shift[r, s, w]` over rotations, the sum the one-rotation rule bounds. */
  lemma {:induction false} RowHitsIsCount(shifts: ShiftMap, value: Var -> bool,
                                          R: int, S: nat, W: int, r: int, w: int)
    requires ShiftTable(shifts, R, S, W)
    requires 0 <= r < R && 0 <= w < W
    ensures RowHits(OnFn(shifts, value), r, w, S) == Count(value, RotationVars(r, w, S))
  {
    if S > 0 {
      assert ShiftTable(shifts, R, S - 1, W);
      RowHitsIsCount(shifts, value, R, S - 1, W, r, w);
      assert RotationVars(r, w, S)[..S - 1] == RotationVars(r, w, S - 1);
    }
  }

  /** With at most one rotation per resident, a resident is on one rotation
      that week exactly when the cell is not Blank. */
  lemma {:induction false} RowHitsAtMostOne(on: OnGrid, r: int, w: int, S: int, R: int)
    requires OneRotationIn(on, w, S, R) && 0 <= r < R
    ensures RowHits(on, r, w, S) == if LastRotation(on, r, w, S) != Blank then 1 else 0
    decreases S
  {
    if S > 0 {
      assert OneRotationIn(on, w, S - 1, R);
      RowHitsAtMostOne(on, r, w, S - 1, R);
      if on(r, S - 1, w) {
        LastRotationSpec(on, r, w, S - 1);
        assert forall s :: 0 <= s < S - 1 ==> !on(r, s, w);
      }
    }
  }

  /** Adding resident R - 1 to every head count adds that resident's row. */
  lemma {:induction false} ColumnTotalStep(on: OnGrid, w: int, S: int, R: int)
    requires R > 0
    ensures ColumnTotal(on, w, S, R) == ColumnTotal(on, w, S, R - 1) + RowHits(on, R - 1, w, S)
    decreases S
  {
    if S > 0 {
      ColumnTotalStep(on, w, S - 1, R);
    }
  }

  /** With at most one rotation per resident and week, the column of the
      rotation-by-week table sums to the number of residents shown on some
      rotation that week. */
  lemma {:induction false} ColumnTotalIsAssigned(on: OnGrid, w: int, S: int, R: int)
    requires OneRotationIn(on, w, S, R)
    ensures ColumnTotal(on, w, S, R) == Assigned(on, w, S, R)
    decreases R
  {
    if R > 0 {
      assert OneRotationIn(on, w, S, R - 1);
      ColumnTotalIsAssigned(on, w, S, R - 1);
      ColumnTotalStep(on, w, S, R);
      RowHitsAtMostOne(on, R - 1, w, S, R);
    } else {
      ColumnTotalZero(on, w, S, R);
    }
  }

  /** With no residents every head count, and so every column, is 0. */
  lemma {:induction false} ColumnTotalZero(on: OnGrid, w: int, S: int, R: int)
    requires R <= 0
    ensures ColumnTotal(on, w, S, R) == 0
    decreases S
  {
    if S > 0 {
      ColumnTotalZero(on, w, S - 1, R);
    }
  }

  // ---------------------------------------------------------------------
  // The tables of a solution of the scheduling model

  /** For a solution of the model, the resident-by-week table names the
      rotation each resident is on. */
  lemma SolutionCell(a: Assignment, shifts: ShiftMap, R: nat, S: nat, W: nat, E: nat,
                     r: int, s: int, w: int)
    requires Holds(a, MainRecords(R, S, W, E)) && ShiftTable(shifts, R, S, W)
    requires 0 <= r < R && 0 <= s < S && 0 <= w < W
    ensures LastRotation(OnFn(shifts, a), r, w, S) == Rot(s) <==> a(Shift(r, s, w))
  {
    var on := OnFn(shifts, a);
    forall r', s1, s2 | 0 <= r' < R && 0 <= s1 < S && 0 <= s2 < S && on(r', s1, w) && on(r', s2, w)
      ensures s1 == s2
    {
      OneRotationPerWeek(a, R, S, W, E, r', w, s1, s2);
    }
    LastRotationExact(on, r, w, S, R, s);
  }

  /** For a solution of the model, each column of the rotation-by-week
      table sums to the number of residents on some rotation that week. */
  lemma SolutionColumn(a: Assignment, shifts: ShiftMap, R: nat, S: nat, W: nat, E: nat, w: int)
    requires Holds(a, MainRecords(R, S, W, E)) && ShiftTable(shifts, R, S, W)
    requires 0 <= w < W
    ensures ColumnTotal(OnFn(shifts, a), w, S, R) == Assigned(OnFn(shifts, a), w, S, R)
  {
    var on := OnFn(shifts, a);
    forall r', s1, s2 | 0 <= r' < R && 0 <= s1 < S && 0 <= s2 < S && on(r', s1, w) && on(r', s2, w)
      ensures s1 == s2
    {
      OneRotationPerWeek(a, R, S, W, E, r', w, s1, s2);
    }
    ColumnTotalIsAssigned(on, w, S, R);
  }

  /** For a solution of the model, the head counts of the hard services meet
      their staffing minimums. */
  lemma SolutionHeadCount(a: Assignment, shifts: ShiftMap, R: nat, S: nat, W: nat, E: nat,
                          s: int, w: int)
    requires Holds(a, MainRecords(R, S, W, E)) && ShiftTable(shifts, R, S, W)
    requires E + 6 <= S && E <= s < S && 0 <= w < W
    ensures s == E ==> HeadCount(OnFn(shifts, a), s, w, R) >= 4
    ensures s == E + 1 && w < W / 2 ==> HeadCount(OnFn(shifts, a), s, w, R) >= 4
    ensures E + 2 <= s < E + 4 ==> HeadCount(OnFn(shifts, a), s, w, R) >= 4
    ensures E + 4 <= s < E + 6 ==> HeadCount(OnFn(shifts, a), s, w, R) >= 2
    ensures E + 6 <= s ==> HeadCount(OnFn(shifts, a), s, w, R) >= 1
  {
    HeadCountIsCount(shifts, a, R, S, W, s, w);
    StaffingMinimum(a, R, S, W, E, s, w);
  }

  // ---------------------------------------------------------------------
  // The callback object

  class ResidentsPartialSolutionPrinter {
    const shifts: ShiftMap
    const numResidents: nat
    const numWeeks: nat
    const numRotations: nat
    const solutions: set<int>
    var solutionCount: nat

    constructor (shifts: ShiftMap, numResidents: nat, numWeeks: nat, numRotations: nat, sols: seq<int>)
      ensures this.shifts == shifts && this.numResidents == numResidents
      ensures this.numWeeks == numWeeks && this.numRotations == numRotations
      ensures forall x :: x in solutions <==> x in sols
      ensures solutionCount == 0
    {
      this.shifts := shifts;
      this.numResidents := numResidents;
      this.numWeeks := numWeeks;
      this.numRotations := numRotations;
      solutions := set x | x in sols;
      solutionCount := 0;
    }

    /** Called once per solution found. When the solution's number is one
        of those to show, fills both tables; always counts the solution. */
    method OnSolutionCallback(value: Var -> bool) returns (printed: bool, sol: array2<Cell>, sol2: array2<int>)
      requires solutionCount in solutions ==>
        forall r, s, w :: 0 <= r < numResidents && 0 <= s < numRotations && 0 <= w < numWeeks ==> (r, s, w) in shifts
      modifies this
      ensures printed <==> old(solutionCount) in solutions
      ensures solutionCount == old(solutionCount) + 1
      ensures fresh(sol) && sol.Length0 == numResidents && sol.Length1 == numWeeks
      ensures fresh(sol2) && sol2.Length0 == numRotations && sol2.Length1 == numWeeks
      ensures forall r, w :: 0 <= r < numResidents && 0 <= w < numWeeks ==>
        sol[r, w] == if printed then LastRotation(OnFn(shifts, value), r, w, numRotations) else Blank
      ensures forall s, w :: 0 <= s < numRotations && 0 <= w < numWeeks ==>
        sol2[s, w] == if printed then HeadCount(OnFn(shifts, value), s, w, numResidents) else 0
    {
      sol := new Cell[numResidents, numWeeks]((r, w) => Blank);
      sol2 := new int[numRotations, numWeeks]((s, w) => 0);
      printed := solutionCount in solutions;
      if printed {
        FillRotations(value, sol);
        FillHeadCounts(value, sol2);
      }
      solutionCount := solutionCount + 1;
    }

    /** `sol[r][w] = s` for every true `shift[r, s, w]`, week by week. */
    method FillRotations(value: Var -> bool, sol: array2<Cell>)
      requires forall r, s, w :: 0 <= r < numResidents && 0 <= s < numRotations && 0 <= w < numWeeks ==> (r, s, w) in shifts
      requires sol.Length0 == numResidents && sol.Length1 == numWeeks
      requires forall r, w :: 0 <= r < numResidents && 0 <= w < numWeeks ==> sol[r, w] == Blank
      modifies sol
      ensures forall r, w :: 0 <= r < numResidents && 0 <= w < numWeeks ==>
        sol[r, w] == LastRotation(OnFn(shifts, value), r, w, numRotations)
    {
      var on := OnFn(shifts, value);
      for w := 0 to numWeeks
        invariant forall r', w' :: 0 <= r' < numResidents && 0 <= w' < numWeeks ==>
          sol[r', w'] == if w' < w then LastRotation(on, r', w', numRotations) else Blank
      {
        for r := 0 to numResidents
          invariant forall r', w' :: 0 <= r' < numResidents && 0 <= w' < numWeeks ==>
            sol[r', w'] == if w' < w || (w' == w && r' < r) then LastRotation(on, r', w', numRotations) else Blank
        {
          for s := 0 to numRotations
            invariant sol[r, w] == LastRotation(on, r, w, s)
            invariant forall r', w' :: 0 <= r' < numResidents && 0 <= w' < numWeeks && (r', w') != (r, w) ==>
              sol[r', w'] == if w' < w || (w' == w && r' < r) then LastRotation(on, r', w', numRotations) else Blank
          {
            if value(shifts[(r, s, w)]) {
              sol[r, w] := Rot(s);
            }
          }
        }
      }
    }

    /** `sol2[s][w] += 1` for every true `shift[r, s, w]`, week by week. */
    method FillHeadCounts(value: Var -> bool, sol2: array2<int>)
      requires forall r, s, w :: 0 <= r < numResidents && 0 <= s < numRotations && 0 <= w < numWeeks ==> (r, s, w) in shifts
      requires sol2.Length0 == numRotations && sol2.Length1 == numWeeks
      requires forall s, w :: 0 <= s < numRotations && 0 <= w < numWeeks ==> sol2[s, w] == 0
      modifies sol2
      ensures forall s, w :: 0 <= s < numRotations && 0 <= w < numWeeks ==>
        sol2[s, w] == HeadCount(OnFn(shifts, value), s, w, numResidents)
    {
      var on := OnFn(shifts, value);
      for w := 0 to numWeeks
        invariant forall s', w' :: 0 <= s' < numRotations && 0 <= w' < numWeeks ==>
          sol2[s', w'] == if w' < w then HeadCount(on, s', w', numResidents) else 0
      {
        for s := 0 to numRotations
          invariant forall s', w' :: 0 <= s' < numRotations && 0 <= w' < numWeeks ==>
            sol2[s', w'] == if w' < w || (w' == w && s' < s) then HeadCount(on, s', w', numResidents) else 0
        {
          for r := 0 to numResidents
            invariant sol2[s, w] == HeadCount(on, s, w, r)
            invariant forall s', w' :: 0 <= s' < numRotations && 0 <= w' < numWeeks && (s', w') != (s, w) ==>
              sol2[s', w'] == if w' < w || (w' == w && s' < s) then HeadCount(on, s', w', numResidents) else 0
          {
            if value(shifts[(r, s, w)]) {
              sol2[s, w] := sol2[s, w] + 1;
            }
          }
        }
      }
    }

    /** The number of solutions reported so far. */
    method SolutionCount() returns (n: nat)
      ensures n == solutionCount
    {
      n := solutionCount;
    }
  }
}
