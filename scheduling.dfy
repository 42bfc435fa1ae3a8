/** The rule-composition layer of the resident scheduler: it creates the
    decision grid `shift[r, s, w]` (resident r on rotation s in week w), splits
    residents into cohorts and rotations into service groups, and adds the
    constraint records each cohort, group and resident receives. Every method
    adds records to the one shared `CpModel`; its contract says which records
    (a function of the configuration), and schedule_properties.dfy says what
    an assignment satisfying them has. */
module Scheduling {
  import opened CpSat
  import opened Partition

  /** Rotation designations. */
  const CHIEF: int := 0
  const PRIMARY_CARE: int := 1

  const MIN_PRIMARY_CARE_WKS: int := 2

  /** The `shift` dictionary: (resident, rotation, week) to its variable. */
  type ShiftMap = map<(int, int, int), Var>

  /** `shift` holds the whole grid of `R` residents, `S` rotations, `W` weeks. */
  predicate ShiftTable(shift: ShiftMap, R: int, S: int, W: int)
  {
    forall r, s, w :: 0 <= r < R && 0 <= s < S && 0 <= w < W ==> ((r, s, w) in shift && shift[(r, s, w)] == Shift(r, s, w))
  }

  // ---------------------------------------------------------------------
  // The variable lists the rules sum over (list comprehensions of the source)

  /** `[shift[r, s, w] for w in range(W)]`: resident r's weeks on rotation s. */
  function WeekVars(r: int, s: int, W: nat): seq<Var>
  {
    seq(W, w => Shift(r, s, w))
  }

  /** `[shift[r, s, w] for s in range(S)]`: resident r's rotations in week w. */
  function RotationVars(r: int, w: int, S: nat): seq<Var>
  {
    seq(S, s => Shift(r, s, w))
  }

  /** `[shift[r, s, w] for r in range(R)]`: the residents on rotation s in week w. */
  function ResidentVars(R: nat, s: int, w: int): seq<Var>
  {
    seq(R, r => Shift(r, s, w))
  }

  /** `[shift[r, CHIEF, w] for w in range(8, 10)]`: the chief window. */
  function ChiefWindowVars(r: int): seq<Var>
  {
    seq(10 - 8, i => Shift(r, CHIEF, 8 + i))
  }

  /** `[shift[r, s, w] for w in range(W) for s in range(S)]`: all of resident r's cells. */
  function AllWorkVars(r: int, S: nat, W: nat): seq<Var>
  {
    if W == 0 then [] else AllWorkVars(r, S, W - 1) + RotationVars(r, W - 1, S)
  }

  // Reading those lists out of the `shift` dictionary, as the loops do.

  function WeekWorks(shift: ShiftMap, r: int, s: int, W: nat): (ws: seq<Var>)
    requires forall w :: 0 <= w < W ==> ((r, s, w) in shift && shift[(r, s, w)] == Shift(r, s, w))
    ensures ws == WeekVars(r, s, W)
  {
    var ws := seq(W, w requires 0 <= w < W => shift[(r, s, w)]);
    assert forall w :: 0 <= w < W ==> ws[w] == WeekVars(r, s, W)[w];
    ws
  }

  function RotationWorks(shift: ShiftMap, r: int, w: int, S: nat): (ws: seq<Var>)
    requires forall s :: 0 <= s < S ==> ((r, s, w) in shift && shift[(r, s, w)] == Shift(r, s, w))
    ensures ws == RotationVars(r, w, S)
  {
    var ws := seq(S, s requires 0 <= s < S => shift[(r, s, w)]);
    assert forall s :: 0 <= s < S ==> ws[s] == RotationVars(r, w, S)[s];
    ws
  }

  function ResidentWorks(shift: ShiftMap, R: nat, s: int, w: int): (ws: seq<Var>)
    requires forall r :: 0 <= r < R ==> ((r, s, w) in shift && shift[(r, s, w)] == Shift(r, s, w))
    ensures ws == ResidentVars(R, s, w)
  {
    var ws := seq(R, r requires 0 <= r < R => shift[(r, s, w)]);
    assert forall r :: 0 <= r < R ==> ws[r] == ResidentVars(R, s, w)[r];
    ws
  }

  function ChiefWindowWorks(shift: ShiftMap, r: int): (ws: seq<Var>)
    requires forall w :: 8 <= w < 10 ==> ((r, CHIEF, w) in shift && shift[(r, CHIEF, w)] == Shift(r, CHIEF, w))
    ensures ws == ChiefWindowVars(r)
  {
    var ws := seq(10 - 8, i requires 0 <= i < 10 - 8 => shift[(r, CHIEF, 8 + i)]);
    assert forall i :: 0 <= i < 10 - 8 ==> ws[i] == ChiefWindowVars(r)[i];
    ws
  }

  function AllWorks(shift: ShiftMap, r: int, S: nat, W: nat): (ws: seq<Var>)
    requires forall s, w :: 0 <= s < S && 0 <= w < W ==> ((r, s, w) in shift && shift[(r, s, w)] == Shift(r, s, w))
    ensures ws == AllWorkVars(r, S, W)
  {
    if W == 0 then [] else AllWorks(shift, r, S, W - 1) + RotationWorks(shift, r, W - 1, S)
  }

  // ---------------------------------------------------------------------
  // Resident rules

  /** Resident r is on primary care for at least MIN_PRIMARY_CARE_WKS weeks. */
  function PrimaryCareRecord(W: nat, r: int): Constraint
  {
    AtLeast(WeekVars(r, PRIMARY_CARE, W), MIN_PRIMARY_CARE_WKS)
  }

  function PrimaryCareFn(W: nat): int -> Constraint
  {
    r => PrimaryCareRecord(W, r)
  }

  /** Resident r is on the chief service for at least 2 of weeks 8 and 9. */
  function ChiefRecord(r: int): Constraint
  {
    AtLeast(ChiefWindowVars(r), 2)
  }

  /** Adds one primary-care minimum per resident of `range(lo, hi)`. */
  method EnforcePrimaryCare(m: CpModel, lo: int, hi: int, numWeeks: nat, shift: ShiftMap)
    requires forall r, w :: lo <= r < hi && 0 <= w < numWeeks ==> ((r, PRIMARY_CARE, w) in shift && shift[(r, PRIMARY_CARE, w)] == Shift(r, PRIMARY_CARE, w))
    modifies m
    ensures m.constraints == old(m.constraints) + Span(lo, hi, PrimaryCareFn(numWeeks))
    ensures m.variables == old(m.variables)
  {
    var r := lo;
    while r < hi
      invariant lo <= r && (r <= hi || r == lo)
      invariant m.constraints == old(m.constraints) + Span(lo, r, PrimaryCareFn(numWeeks))
      invariant m.variables == old(m.variables)
      decreases hi - r
    {
      m.Add(AtLeast(WeekWorks(shift, r, PRIMARY_CARE, numWeeks), MIN_PRIMARY_CARE_WKS));
      SpanNext(old(m.constraints), lo, r, PrimaryCareFn(numWeeks));
      r := r + 1;
    }
  }

  /** Adds one chief-window minimum per resident of `range(lo, hi)`; the
      weeks are fixed at 8 and 9 whatever `allWeeks` is. */
  method EnforceChief(m: CpModel, lo: int, hi: int, allWeeks: nat, shift: ShiftMap)
    requires forall r, w :: lo <= r < hi && 8 <= w < 10 ==> ((r, CHIEF, w) in shift && shift[(r, CHIEF, w)] == Shift(r, CHIEF, w))
    modifies m
    ensures m.constraints == old(m.constraints) + Span(lo, hi, ChiefRecord)
    ensures m.variables == old(m.variables)
  {
    var r := lo;
    while r < hi
      invariant lo <= r && (r <= hi || r == lo)
      invariant m.constraints == old(m.constraints) + Span(lo, r, ChiefRecord)
      invariant m.variables == old(m.variables)
      decreases hi - r
    {
      m.Add(AtLeast(ChiefWindowWorks(shift, r), 2));
      SpanNext(old(m.constraints), lo, r, ChiefRecord);
      r := r + 1;
    }
  }

  /** Cohort sizes: 4 primary-care year 2, 2 primary-care year 3, 4 chiefs,
      34 normal year 2, and the rest normal year 3. */
  function ResidentBreakdown(numResidents: int): seq<int>
  {
    var numPcareYr2, numPcareYr3, numChief, numNormYr2 := 4, 2, 4, 34;
    var numNormYr3 := numResidents - (numPcareYr2 + numPcareYr3 + numChief + numNormYr2);
    [numPcareYr2, numPcareYr3, numChief, numNormYr2, numNormYr3]
  }

  /** Cohort labels, in cohort order. */
  const RES_TYPE: seq<string> := ["pcare_yr2", "pcare_yr3", "chief", "norm_yr2", "num_norm_yr3"]

  /** The substring test `p in s`. */
  predicate Contains(s: string, p: string)
  {
    exists k :: 0 <= k <= |s| - |p| && MatchAt(s, p, k)
  }

  predicate MatchAt(s: string, p: string, k: int)
  {
    0 <= k <= |s| - |p| && s[k..k + |p|] == p
  }

  /** The records one cohort `range(lo, hi)` labelled `kind` receives. */
  function CohortRecords(kind: string, lo: int, hi: int, W: nat): seq<Constraint>
  {
    (if Contains(kind, "pcare") then Span(lo, hi, PrimaryCareFn(W)) else [])
    + (if Contains(kind, "chief") then Span(lo, hi, ChiefRecord) else [])
  }

  /** The records of the first `k` cohorts. */
  function ResidentRecordsUpTo(numResidents: int, W: nat, k: int): seq<Constraint>
    requires 0 <= k <= 5
  {
    if k == 0 then []
    else
      var bd := ResidentBreakdown(numResidents);
      ResidentRecordsUpTo(numResidents, W, k - 1)
      + CohortRecords(RES_TYPE[k - 1], Start(bd, k - 1), End(bd, k - 1), W)
  }

  function ResidentRecords(numResidents: int, W: nat): seq<Constraint>
  {
    ResidentRecordsUpTo(numResidents, W, 5)
  }

  /** `p` does not occur in `s` when one of its characters does not. */
  lemma Missing(s: string, p: string, j: int)
    requires 0 <= j < |p| && p[j] !in s
    ensures !Contains(s, p)
  {
    forall k | 0 <= k <= |s| - |p|
      ensures !MatchAt(s, p, k)
    {
      assert s[k..k + |p|][j] == s[k + j];
    }
  }

  /** Which labels the two substring tests pick out. */
  lemma LabelTests()
    ensures Contains(RES_TYPE[0], "pcare") && !Contains(RES_TYPE[0], "chief")
    ensures Contains(RES_TYPE[1], "pcare") && !Contains(RES_TYPE[1], "chief")
    ensures !Contains(RES_TYPE[2], "pcare") && Contains(RES_TYPE[2], "chief")
    ensures !Contains(RES_TYPE[3], "pcare") && !Contains(RES_TYPE[3], "chief")
    ensures !Contains(RES_TYPE[4], "pcare") && !Contains(RES_TYPE[4], "chief")
  {
    assert MatchAt(RES_TYPE[0], "pcare", 0);
    assert MatchAt(RES_TYPE[1], "pcare", 0);
    assert MatchAt(RES_TYPE[2], "chief", 0);
    Missing(RES_TYPE[0], "chief", 1);
    Missing(RES_TYPE[1], "chief", 1);
    Missing(RES_TYPE[2], "pcare", 0);
    Missing(RES_TYPE[3], "pcare", 0);
    Missing(RES_TYPE[3], "chief", 0);
    Missing(RES_TYPE[4], "pcare", 0);
    Missing(RES_TYPE[4], "chief", 0);
  }

  /** The cohort boundaries: [0, 4), [4, 6), [6, 10), [10, 44), [44, n). */
  lemma CohortBounds(numResidents: int)
    ensures var bd := ResidentBreakdown(numResidents);
      && Start(bd, 0) == 0 && Start(bd, 1) == 4 && Start(bd, 2) == 6
      && Start(bd, 3) == 10 && Start(bd, 4) == 44 && End(bd, 4) == numResidents
  {
    var bd := ResidentBreakdown(numResidents);
    assert bd[..0] == [];
    assert bd[..1] == [4];
    assert bd[..2] == [4, 2];
    assert bd[..3] == [4, 2, 4];
    assert bd[..4] == [4, 2, 4, 34];
    assert [4, 2, 4, 34][..3] == [4, 2, 4];
    assert [4, 2, 4][..2] == [4, 2];
    assert [4, 2][..1] == [4];
  }

  /** What the loop over cohorts needs about cohort i: whether its label
      passes each test, and where it lies. */
  lemma CohortFacts(numResidents: int, i: int)
    requires 0 <= i < 5
    ensures Contains(RES_TYPE[i], "pcare") <==> i < 2
    ensures Contains(RES_TYPE[i], "chief") <==> i == 2
    ensures var bd := ResidentBreakdown(numResidents);
      && (i < 2 ==> 0 <= Start(bd, i) && End(bd, i) <= 6)
      && (i == 2 ==> Start(bd, i) == 6 && End(bd, i) == 10)
  {
    LabelTests();
    CohortBounds(numResidents);
  }

  /** The records of the first i + 1 cohorts: those of the first i, then
      cohort i's by its label. */
  lemma ResidentRecordsStep(numResidents: int, W: nat, i: int, lo: int, hi: int)
    requires 0 <= i < 5
    requires lo == Start(ResidentBreakdown(numResidents), i) && hi == End(ResidentBreakdown(numResidents), i)
    ensures ResidentRecordsUpTo(numResidents, W, i + 1)
      == ResidentRecordsUpTo(numResidents, W, i)
         + ((if Contains(RES_TYPE[i], "pcare") then Span(lo, hi, PrimaryCareFn(W)) else [])
            + (if Contains(RES_TYPE[i], "chief") then Span(lo, hi, ChiefRecord) else []))
  {
  }

  /** Applies the cohort rules: primary-care cohorts get the primary-care
      minimum, the chief cohort gets the chief window. Only cohorts whose
      label names them are touched, so only residents 0 to 9 are read. */
  method ApplyResidentRules(m: CpModel, allWeeks: nat, shift: ShiftMap, numResidents: int)
    requires forall r, w :: 0 <= r < 6 && 0 <= w < allWeeks ==> ((r, PRIMARY_CARE, w) in shift && shift[(r, PRIMARY_CARE, w)] == Shift(r, PRIMARY_CARE, w))
    requires forall r, w :: 6 <= r < 10 && 8 <= w < 10 ==> ((r, CHIEF, w) in shift && shift[(r, CHIEF, w)] == Shift(r, CHIEF, w))
    modifies m
    ensures m.constraints == old(m.constraints) + ResidentRecords(numResidents, allWeeks)
    ensures m.variables == old(m.variables)
  {
    var numPcareYr2 := 4;
    var numPcareYr3 := 2;
    var numChief := 4;
    var numNormYr2 := 34;
    var numNormYr3 := numResidents - (numPcareYr2 + numPcareYr3 + numChief + numNormYr2);
    var residentBreakdown := [numPcareYr2, numPcareYr3, numChief, numNormYr2, numNormYr3];
    var resType := ["pcare_yr2", "pcare_yr3", "chief", "norm_yr2", "num_norm_yr3"];
    assert residentBreakdown == ResidentBreakdown(numResidents);
    assert resType == RES_TYPE;

    for i := 0 to |residentBreakdown|
      invariant m.constraints == old(m.constraints) + ResidentRecordsUpTo(numResidents, allWeeks, i)
      invariant m.variables == old(m.variables)
    {
      var resIndStart := Sum(residentBreakdown[..i]);
      var lo, hi := resIndStart, resIndStart + residentBreakdown[i];
      assert lo == Start(residentBreakdown, i) && hi == End(residentBreakdown, i);
      CohortFacts(numResidents, i);
      ghost var before := m.constraints;
      ghost var pcare := if Contains(RES_TYPE[i], "pcare") then Span(lo, hi, PrimaryCareFn(allWeeks)) else [];
      ghost var chief := if Contains(RES_TYPE[i], "chief") then Span(lo, hi, ChiefRecord) else [];
      if Contains(resType[i], "pcare") {
        EnforcePrimaryCare(m, lo, hi, allWeeks, shift);
      }
      assert m.constraints == before + pcare;
      if Contains(resType[i], "chief") {
        EnforceChief(m, lo, hi, allWeeks, shift);
      }
      assert m.constraints == before + pcare + chief;
      SeqAssoc(before, pcare, chief);
      ResidentRecordsStep(numResidents, allWeeks, i, lo, hi);
      SeqAssoc(old(m.constraints), ResidentRecordsUpTo(numResidents, allWeeks, i), pcare + chief);
    }
  }

  // ---------------------------------------------------------------------
  // Service rules

  /** Run rule: 24 means "blocks of 2 or 4 weeks", with hard maximum 4; any
      other value k means "blocks of exactly k weeks". */
  function RunRecord(conseqWks: int, works: seq<Var>): Constraint
  {
    if conseqWks == 24 then OnlyTwoOrFourSequence(works, 4)
    else HardSequenceLen(works, conseqWks)
  }

  function RunFn(conseqWks: int, W: nat): (int, int) -> Constraint
  {
    (r, s) => RunRecord(conseqWks, WeekVars(r, s, W))
  }

  /** Staffing rule: 40 means "at least 4 residents in each of the first
      `W / 2` weeks"; any other value n means "at least n in every week". */
  function StaffedWeeks(numResPerWk: int, W: nat): nat
  {
    if numResPerWk == 40 then W / 2 else W
  }

  function StaffingMin(numResPerWk: int): int
  {
    if numResPerWk == 40 then 4 else numResPerWk
  }

  function StaffingFn(numResPerWk: int, R: nat): (int, int) -> Constraint
  {
    (s, w) => AtLeast(ResidentVars(R, s, w), StaffingMin(numResPerWk))
  }

  /** The records of one service group `range(lo, hi)`: a run rule for every
      (resident, service), resident first, then a staffing minimum for every
      (service, staffed week). */
  function ServiceRecords(conseqWks: int, W: nat, numResPerWk: int, lo: int, hi: int, R: nat): seq<Constraint>
  {
    Grid(0, R, lo, hi, RunFn(conseqWks, W))
    + Grid(lo, hi, 0, StaffedWeeks(numResPerWk, W), StaffingFn(numResPerWk, R))
  }

  /** Service group sizes after the electives; the last group takes the rest. */
  function ServiceBreakdown(numRotations: int, numElectives: int): seq<int>
  {
    [1, 1, 2, 2, numRotations - (numElectives + 1 + 1 + 2 + 2)]
  }

  /** Run rule and staffing rule of each service group. */
  const WK_RULES: seq<int> := [2, 2, 24, 4, 4]
  const RES_RULES: seq<int> := [4, 40, 4, 2, 1]

  /** First rotation of service group i. */
  function GroupStart(S: int, E: int, i: int): int
    requires 0 <= i <= 5
  {
    E + Start(ServiceBreakdown(S, E), i)
  }

  /** One past the last rotation of service group i. */
  function GroupEnd(S: int, E: int, i: int): int
    requires 0 <= i < 5
  {
    E + End(ServiceBreakdown(S, E), i)
  }

  function GroupRecordsUpTo(R: nat, S: int, E: int, W: nat, k: int): seq<Constraint>
    requires 0 <= k <= 5
  {
    if k == 0 then []
    else
      GroupRecordsUpTo(R, S, E, W, k - 1)
      + ServiceRecords(WK_RULES[k - 1], W, RES_RULES[k - 1], GroupStart(S, E, k - 1), GroupEnd(S, E, k - 1), R)
  }

  // ---------------------------------------------------------------------
  // The records of the model-building part of `main`

  /** Elective blocks last exactly 2 weeks. */
  function ElectiveRunFn(W: nat): (int, int) -> Constraint
  {
    (r, e) => HardSequenceLen(WeekVars(r, e, W), 2)
  }

  /** The `on_rotation[r, w]` variable. */
  function OnRotationFn(): (int, int) -> Var
  {
    (r, w) => OnRotation(r, w)
  }

  /** `on_rotation[r, w] == sum of resident r's rotations in week w`. */
  function OnRotationLinkFn(S: nat): (int, int) -> Constraint
  {
    (r, w) => EqualsSum(OnRotation(r, w), RotationVars(r, w, S))
  }

  /** At most one rotation per resident and week. */
  function OneRotationFn(S: nat): (int, int) -> Constraint
  {
    (r, w) => AtMost(RotationVars(r, w, S), 1)
  }

  /** At most `cap` weeks on a rotation, per resident (outer index: rotation). */
  function CapFn(cap: int, W: nat): (int, int) -> Constraint
  {
    (s, r) => AtMost(WeekVars(r, s, W), cap)
  }

  /** At most 4 weeks on each hard service, per resident. */
  function HardServiceCapFn(W: nat): (int, int) -> Constraint
  {
    CapFn(4, W)
  }

  /** At most 2 weeks on each elective, per resident. */
  function ElectiveCapFn(W: nat): (int, int) -> Constraint
  {
    CapFn(2, W)
  }

  /** The rest rule: the soft sum over all of a resident's cells with bounds
      (hard_min, soft_min, min_cost, soft_max, hard_max, max_cost) =
      (10, 11, 10, 11, 12, 10). */
  function RestFn(S: nat, W: nat): int -> Constraint
  {
    r => SoftSum(AllWorkVars(r, S, W), 10, 11, 10, 11, 12, 10)
  }

  /** Every record `main` adds, in order. */
  function MainRecords(R: nat, S: nat, W: nat, E: nat): seq<Constraint>
  {
    ResidentRecords(R, W)
    + Grid(0, R, 0, E, ElectiveRunFn(W))
    + Grid(0, R, 0, W, OnRotationLinkFn(S))
    + Grid(0, R, 0, W, OneRotationFn(S))
    + Grid(E, S, 0, R, HardServiceCapFn(W))
    + Grid(0, E, 0, R, ElectiveCapFn(W))
    + GroupRecordsUpTo(R, S, E, W, 5)
    + Span(0, R, RestFn(S, W))
  }

  // ---------------------------------------------------------------------
  // Creating the grid of variables, one (r, s, w) after another

  /** (r, s, w) is a cell of a grid with S rotations and W weeks, and comes
      before (r0, s0, w0) in the order the triple loop visits cells. */
  predicate Before(r: int, s: int, w: int, r0: int, s0: int, w0: int, S: int, W: int)
  {
    && 0 <= r && 0 <= s < S && 0 <= w < W
    && (r < r0 || (r == r0 && (s < s0 || (s == s0 && w < w0))))
  }

  /** `shift` and the model's variables hold exactly the cells before
      (r0, s0, w0), each once, each bound to its own variable. */
  ghost predicate GridCreated(shift: ShiftMap, vars: seq<Var>, r0: int, s0: int, w0: int, S: int, W: int)
  {
    && (forall k :: k in shift <==> Before(k.0, k.1, k.2, r0, s0, w0, S, W))
    && (forall k :: k in shift ==> shift[k] == Shift(k.0, k.1, k.2))
    && (forall v :: v in vars <==> v.Shift? && Before(v.r, v.s, v.w, r0, s0, w0, S, W))
    && Distinct(vars)
  }

  /** Creating the variable of cell (r, s, w) moves the frontier one cell on. */
  lemma GridStep(shift: ShiftMap, vars: seq<Var>, r: int, s: int, w: int, S: int, W: int)
    requires GridCreated(shift, vars, r, s, w, S, W)
    requires 0 <= r && 0 <= s < S && 0 <= w < W
    ensures GridCreated(shift[(r, s, w) := Shift(r, s, w)], vars + [Shift(r, s, w)], r, s, w + 1, S, W)
  {
    var vars' := vars + [Shift(r, s, w)];
    forall i, j | 0 <= i < j < |vars'| ensures vars'[i] != vars'[j] {
      if j == |vars| {
        assert vars'[i] == vars[i] && vars[i] in vars;
      } else {
        assert vars'[i] == vars[i] && vars'[j] == vars[j];
      }
    }
  }

  /** Past the last week of a rotation comes the first week of the next. */
  lemma GridNextRotation(shift: ShiftMap, vars: seq<Var>, r: int, s: int, S: int, W: int)
    requires GridCreated(shift, vars, r, s, W, S, W)
    ensures GridCreated(shift, vars, r, s + 1, 0, S, W)
  {
  }

  /** Past the last rotation of a resident comes the first rotation of the next. */
  lemma GridNextResident(shift: ShiftMap, vars: seq<Var>, r: int, S: int, W: int)
    requires GridCreated(shift, vars, r, S, 0, S, W)
    ensures GridCreated(shift, vars, r + 1, 0, 0, S, W)
  {
  }

  /** `onRotation` binds every (resident, week) of an R-by-W grid that comes
      before (r0, w0), resident first, to its own `on_rotation` variable. */
  predicate OnRotationTable(onRotation: map<(int, int), Var>, R: int, W: int, r0: int, w0: int)
  {
    forall r, w :: (0 <= r < R && 0 <= w < W && (r < r0 || (r == r0 && w < w0))) ==>
      ((r, w) in onRotation && onRotation[(r, w)] == OnRotation(r, w))
  }

  class CreateSchedule {
    const m: CpModel

    const numResidents: nat
    const numRotations: nat
    const numWeeks: nat
    const numElectives: nat

    // Service group sizes: the first number is the run rule, the second the
    // staffing rule of the group.
    const num2_4: int
    const num2_40: int
    const num24_4: int
    const num4_2: int
    const num4_1: int

    var shift: ShiftMap

    /** The grid is complete, and the configuration is large enough for
        the cohort and service-group rules to read only cells of the grid. */
    ghost predicate Valid()
      reads this
    {
      && ShiftTable(shift, numResidents, numRotations, numWeeks)
      && numResidents >= 10 && numWeeks >= 10 && numRotations >= 2
      && num2_4 == 1 && num2_40 == 1 && num24_4 == 2 && num4_2 == 2
      && num4_1 == numRotations - (numElectives + 1 + 1 + 2 + 2)
      && numElectives + 1 + 1 + 2 + 2 <= numRotations
    }

    /** The grid has been created up to, not including, (r0, s0, w0). */
    ghost predicate CreatedUpTo(r0: int, s0: int, w0: int)
      reads this, m
    {
      GridCreated(shift, m.variables, r0, s0, w0, numRotations, numWeeks) && m.constraints == []
    }

    /** Creates the model and one variable per (resident, rotation, week). */
    constructor ()
      ensures Valid() && fresh(m)
      ensures numResidents == 77 && numRotations == 20 && numWeeks == 12 && numElectives == 6
      ensures num4_1 == 8
      ensures m.constraints == []
      ensures forall k :: k in shift <==>
        0 <= k.0 < numResidents && 0 <= k.1 < numRotations && 0 <= k.2 < numWeeks
      ensures forall v :: v in m.variables <==>
        v.Shift? && 0 <= v.r < numResidents && 0 <= v.s < numRotations && 0 <= v.w < numWeeks
      ensures Distinct(m.variables)
    {
      m := new CpModel();
      numResidents := 77;
      numRotations := 20;
      numWeeks := 12;
      numElectives := 6;
      num2_4 := 1;   // nmar
      num2_40 := 1;  // NF
      num24_4 := 2;  // MICU or CCU
      num4_2 := 2;
      num4_1 := 20 - (6 + 1 + 1 + 2 + 2);
      shift := map[];
      new;
      for r := 0 to numResidents
        invariant CreatedUpTo(r, 0, 0)
      {
        for s := 0 to numRotations
          invariant CreatedUpTo(r, s, 0)
        {
          for w := 0 to numWeeks
            invariant CreatedUpTo(r, s, w)
          {
            GridStep(shift, m.variables, r, s, w, numRotations, numWeeks);
            var x := m.NewBoolVar(Shift(r, s, w));
            shift := shift[(r, s, w) := x];
          }
          GridNextRotation(shift, m.variables, r, s, numRotations, numWeeks);
        }
        GridNextResident(shift, m.variables, r, numRotations, numWeeks);
      }
    }

    /** Adds the run rule of a service group for every (resident, service),
        then its staffing minimum for every (service, staffed week). */
    method ApplyServiceRules(conseqWks: int, numWeeksTotal: nat, numResPerWk: int,
                             lo: int, hi: int, allResidents: nat, shift: ShiftMap)
      requires forall r, s, w ::
        (0 <= r < allResidents && lo <= s < hi && 0 <= w < numWeeksTotal) ==> ((r, s, w) in shift && shift[(r, s, w)] == Shift(r, s, w))
      modifies m
      ensures m.constraints == old(m.constraints)
        + ServiceRecords(conseqWks, numWeeksTotal, numResPerWk, lo, hi, allResidents)
      ensures m.variables == old(m.variables)
    {
      ghost var c0 := m.constraints;
      AddRunRules(conseqWks, numWeeksTotal, lo, hi, allResidents, shift);
      ghost var c1 := m.constraints;
      AddStaffingRules(numWeeksTotal, numResPerWk, lo, hi, allResidents, shift);
      SeqAssoc(c0, Grid(0, allResidents, lo, hi, RunFn(conseqWks, numWeeksTotal)),
        Grid(lo, hi, 0, StaffedWeeks(numResPerWk, numWeeksTotal), StaffingFn(numResPerWk, allResidents)));
    }

    /** The run rule of the group for every resident and service of the group. */
    method AddRunRules(conseqWks: int, numWeeksTotal: nat,
                       lo: int, hi: int, allResidents: nat, shift: ShiftMap)
      requires forall r, s, w ::
        (0 <= r < allResidents && lo <= s < hi && 0 <= w < numWeeksTotal) ==> ((r, s, w) in shift && shift[(r, s, w)] == Shift(r, s, w))
      modifies m
      ensures m.constraints == old(m.constraints) + Grid(0, allResidents, lo, hi, RunFn(conseqWks, numWeeksTotal))
      ensures m.variables == old(m.variables)
    {
      var runs := RunFn(conseqWks, numWeeksTotal);
      for r := 0 to allResidents
        invariant m.constraints == old(m.constraints) + Grid(0, r, lo, hi, runs)
        invariant m.variables == old(m.variables)
      {
        AddRunRulesOf(conseqWks, numWeeksTotal, lo, hi, r, shift);
        GridNext(old(m.constraints), 0, r, lo, hi, runs);
      }
    }

    /** The inner loop of the run rules: resident r, every service of the group. */
    method AddRunRulesOf(conseqWks: int, numWeeksTotal: nat, lo: int, hi: int, r: int, shift: ShiftMap)
      requires forall s, w :: (lo <= s < hi && 0 <= w < numWeeksTotal) ==> ((r, s, w) in shift && shift[(r, s, w)] == Shift(r, s, w))
      modifies m
      ensures m.constraints == old(m.constraints) + Span(lo, hi, RowFn(RunFn(conseqWks, numWeeksTotal), r))
      ensures m.variables == old(m.variables)
    {
      var row := RowFn(RunFn(conseqWks, numWeeksTotal), r);
      var s := lo;
      while s < hi
        invariant lo <= s && (s <= hi || s == lo)
        invariant m.constraints == old(m.constraints) + Span(lo, s, row)
        invariant m.variables == old(m.variables)
        decreases hi - s
      {
        var works := WeekWorks(shift, r, s, numWeeksTotal);
        if conseqWks == 24 {
          var serviceHardMax := 4;
          m.Add(OnlyTwoOrFourSequence(works, serviceHardMax));
        } else {
          m.Add(HardSequenceLen(works, conseqWks));
        }
        SpanNext(old(m.constraints), lo, s, row);
        s := s + 1;
      }
    }

    /** The staffing minimum of the group for every service and staffed week. */
    method AddStaffingRules(numWeeksTotal: nat, numResPerWk: int,
                            lo: int, hi: int, allResidents: nat, shift: ShiftMap)
      requires forall r, s, w ::
        (0 <= r < allResidents && lo <= s < hi && 0 <= w < numWeeksTotal) ==> ((r, s, w) in shift && shift[(r, s, w)] == Shift(r, s, w))
      modifies m
      ensures m.constraints == old(m.constraints)
        + Grid(lo, hi, 0, StaffedWeeks(numResPerWk, numWeeksTotal), StaffingFn(numResPerWk, allResidents))
      ensures m.variables == old(m.variables)
    {
      var staffing := StaffingFn(numResPerWk, allResidents);
      var weeks := StaffedWeeks(numResPerWk, numWeeksTotal);
      var s := lo;
      while s < hi
        invariant lo <= s && (s <= hi || s == lo)
        invariant m.constraints == old(m.constraints) + Grid(lo, s, 0, weeks, staffing)
        invariant m.variables == old(m.variables)
        decreases hi - s
      {
        AddStaffingOf(numWeeksTotal, numResPerWk, s, allResidents, shift);
        GridNext(old(m.constraints), lo, s, 0, weeks, staffing);
        s := s + 1;
      }
    }

    /** The inner loops of the staffing rules: service s, every staffed week. */
    method AddStaffingOf(numWeeksTotal: nat, numResPerWk: int, s: int, allResidents: nat, shift: ShiftMap)
      requires forall r, w :: (0 <= r < allResidents && 0 <= w < numWeeksTotal) ==> ((r, s, w) in shift && shift[(r, s, w)] == Shift(r, s, w))
      modifies m
      ensures m.constraints == old(m.constraints)
        + Span(0, StaffedWeeks(numResPerWk, numWeeksTotal), RowFn(StaffingFn(numResPerWk, allResidents), s))
      ensures m.variables == old(m.variables)
    {
      var row := RowFn(StaffingFn(numResPerWk, allResidents), s);
      if numResPerWk == 40 {
        for w := 0 to numWeeksTotal / 2
          invariant m.constraints == old(m.constraints) + Span(0, w, row)
          invariant m.variables == old(m.variables)
        {
          m.Add(AtLeast(ResidentWorks(shift, allResidents, s, w), 4));
          SpanNext(old(m.constraints), 0, w, row);
        }
      } else {
        for w := 0 to numWeeksTotal
          invariant m.constraints == old(m.constraints) + Span(0, w, row)
          invariant m.variables == old(m.variables)
        {
          m.Add(AtLeast(ResidentWorks(shift, allResidents, s, w), numResPerWk));
          SpanNext(old(m.constraints), 0, w, row);
        }
      }
    }

    /** Electives are worked in blocks of exactly two weeks. */
    method AddElectiveBlocks()
      requires Valid()
      modifies m
      ensures m.constraints == old(m.constraints) + Grid(0, numResidents, 0, numElectives, ElectiveRunFn(numWeeks))
      ensures m.variables == old(m.variables)
    {
      var f := ElectiveRunFn(numWeeks);
      for r := 0 to numResidents
        invariant m.constraints == old(m.constraints) + Grid(0, r, 0, numElectives, f)
        invariant m.variables == old(m.variables)
      {
        AddElectiveBlocksOf(r);
        GridNext(old(m.constraints), 0, r, 0, numElectives, f);
      }
    }

    /** The inner loop of the elective blocks: resident r, every elective. */
    method AddElectiveBlocksOf(r: int)
      requires Valid() && 0 <= r < numResidents
      modifies m
      ensures m.constraints == old(m.constraints) + Span(0, numElectives, RowFn(ElectiveRunFn(numWeeks), r))
      ensures m.variables == old(m.variables)
    {
      var row := RowFn(ElectiveRunFn(numWeeks), r);
      for e := 0 to numElectives
        invariant m.constraints == old(m.constraints) + Span(0, e, row)
        invariant m.variables == old(m.variables)
      {
        var works := WeekWorks(shift, r, e, numWeeks);
        m.Add(HardSequenceLen(works, 2));
        SpanNext(old(m.constraints), 0, e, row);
      }
    }

    /** Creates `on_rotation[r, w]` for every resident and week, then ties each
        to the sum of that resident's rotations in that week. */
    method AddOnRotation()
      requires Valid()
      modifies m
      ensures m.constraints == old(m.constraints) + Grid(0, numResidents, 0, numWeeks, OnRotationLinkFn(numRotations))
      ensures m.variables == old(m.variables) + Grid(0, numResidents, 0, numWeeks, OnRotationFn())
    {
      var onRotation := CreateOnRotation();
      LinkOnRotation(onRotation);
    }

    /** One new variable `on_rotation[r, w]` per resident and week. */
    method CreateOnRotation() returns (onRotation: map<(int, int), Var>)
      modifies m
      ensures OnRotationTable(onRotation, numResidents, numWeeks, numResidents, 0)
      ensures m.variables == old(m.variables) + Grid(0, numResidents, 0, numWeeks, OnRotationFn())
      ensures m.constraints == old(m.constraints)
    {
      onRotation := map[];
      for r := 0 to numResidents
        invariant m.variables == old(m.variables) + Grid(0, r, 0, numWeeks, OnRotationFn())
        invariant m.constraints == old(m.constraints)
        invariant OnRotationTable(onRotation, numResidents, numWeeks, r, 0)
      {
        onRotation := CreateOnRotationOf(r, onRotation);
        GridNext(old(m.variables), 0, r, 0, numWeeks, OnRotationFn());
      }
    }

    /** The inner loop of the `on_rotation` creation: resident r, every week. */
    method CreateOnRotationOf(r: int, onRotation: map<(int, int), Var>) returns (onRotation': map<(int, int), Var>)
      requires OnRotationTable(onRotation, numResidents, numWeeks, r, 0)
      modifies m
      ensures OnRotationTable(onRotation', numResidents, numWeeks, r + 1, 0)
      ensures m.variables == old(m.variables) + Span(0, numWeeks, RowFn(OnRotationFn(), r))
      ensures m.constraints == old(m.constraints)
    {
      var row := RowFn(OnRotationFn(), r);
      onRotation' := onRotation;
      for w := 0 to numWeeks
        invariant m.variables == old(m.variables) + Span(0, w, row)
        invariant m.constraints == old(m.constraints)
        invariant OnRotationTable(onRotation', numResidents, numWeeks, r, w)
      {
        var x := m.NewBoolVar(OnRotation(r, w));
        onRotation' := onRotation'[(r, w) := x];
        SpanNext(old(m.variables), 0, w, row);
      }
    }

    /** `on_rotation[r, w] == sum of resident r's rotations in week w`, for
        every resident and week. */
    method LinkOnRotation(onRotation: map<(int, int), Var>)
      requires Valid()
      requires OnRotationTable(onRotation, numResidents, numWeeks, numResidents, 0)
      modifies m
      ensures m.constraints == old(m.constraints) + Grid(0, numResidents, 0, numWeeks, OnRotationLinkFn(numRotations))
      ensures m.variables == old(m.variables)
    {
      var link := OnRotationLinkFn(numRotations);
      for r := 0 to numResidents
        invariant m.constraints == old(m.constraints) + Grid(0, r, 0, numWeeks, link)
        invariant m.variables == old(m.variables)
      {
        LinkOnRotationOf(onRotation, r);
        GridNext(old(m.constraints), 0, r, 0, numWeeks, link);
      }
    }

    /** The inner loop of the links: resident r, every week. */
    method LinkOnRotationOf(onRotation: map<(int, int), Var>, r: int)
      requires Valid() && 0 <= r < numResidents
      requires OnRotationTable(onRotation, numResidents, numWeeks, numResidents, 0)
      modifies m
      ensures m.constraints == old(m.constraints) + Span(0, numWeeks, RowFn(OnRotationLinkFn(numRotations), r))
      ensures m.variables == old(m.variables)
    {
      var row := RowFn(OnRotationLinkFn(numRotations), r);
      for w := 0 to numWeeks
        invariant m.constraints == old(m.constraints) + Span(0, w, row)
        invariant m.variables == old(m.variables)
      {
        m.Add(EqualsSum(onRotation[(r, w)], RotationWorks(shift, r, w, numRotations)));
        SpanNext(old(m.constraints), 0, w, row);
      }
    }

    /** A resident is on at most one rotation in a week. */
    method AddOneRotationPerWeek()
      requires Valid()
      modifies m
      ensures m.constraints == old(m.constraints) + Grid(0, numResidents, 0, numWeeks, OneRotationFn(numRotations))
      ensures m.variables == old(m.variables)
    {
      var f := OneRotationFn(numRotations);
      for r := 0 to numResidents
        invariant m.constraints == old(m.constraints) + Grid(0, r, 0, numWeeks, f)
        invariant m.variables == old(m.variables)
      {
        AddOneRotationOf(r);
        GridNext(old(m.constraints), 0, r, 0, numWeeks, f);
      }
    }

    /** The inner loop of the one-rotation rule: resident r, every week. */
    method AddOneRotationOf(r: int)
      requires Valid() && 0 <= r < numResidents
      modifies m
      ensures m.constraints == old(m.constraints) + Span(0, numWeeks, RowFn(OneRotationFn(numRotations), r))
      ensures m.variables == old(m.variables)
    {
      var row := RowFn(OneRotationFn(numRotations), r);
      for w := 0 to numWeeks
        invariant m.constraints == old(m.constraints) + Span(0, w, row)
        invariant m.variables == old(m.variables)
      {
        m.Add(AtMost(RotationWorks(shift, r, w, numRotations), 1));
        SpanNext(old(m.constraints), 0, w, row);
      }
    }

    /** A resident does each hard service for at most 4 weeks. */
    method AddHardServiceCaps()
      requires Valid()
      modifies m
      ensures m.constraints == old(m.constraints) + Grid(numElectives, numRotations, 0, numResidents, HardServiceCapFn(numWeeks))
      ensures m.variables == old(m.variables)
    {
      AddCaps(numElectives, numRotations, 4);
    }

    /** A resident does each elective for at most 2 weeks. */
    method AddElectiveCaps()
      requires Valid()
      modifies m
      ensures m.constraints == old(m.constraints) + Grid(0, numElectives, 0, numResidents, ElectiveCapFn(numWeeks))
      ensures m.variables == old(m.variables)
    {
      AddCaps(0, numElectives, 2);
    }

    /** The loops of both caps: for every rotation of `range(lo, hi)` and
        every resident, at most `cap` weeks on that rotation. */
    method AddCaps(lo: int, hi: int, cap: int)
      requires Valid() && 0 <= lo <= hi <= numRotations
      modifies m
      ensures m.constraints == old(m.constraints) + Grid(lo, hi, 0, numResidents, CapFn(cap, numWeeks))
      ensures m.variables == old(m.variables)
    {
      var f := CapFn(cap, numWeeks);
      var s := lo;
      while s < hi
        invariant lo <= s <= hi
        invariant m.constraints == old(m.constraints) + Grid(lo, s, 0, numResidents, f)
        invariant m.variables == old(m.variables)
      {
        AddCapsOf(s, cap);
        GridNext(old(m.constraints), lo, s, 0, numResidents, f);
        s := s + 1;
      }
    }

    /** The inner loop of both caps: rotation s, every resident, at most
        `cap` weeks. */
    method AddCapsOf(s: int, cap: int)
      requires Valid() && 0 <= s < numRotations
      modifies m
      ensures m.constraints == old(m.constraints) + Span(0, numResidents, RowFn(CapFn(cap, numWeeks), s))
      ensures m.variables == old(m.variables)
    {
      var row := RowFn(CapFn(cap, numWeeks), s);
      for r := 0 to numResidents
        invariant m.constraints == old(m.constraints) + Span(0, r, row)
        invariant m.variables == old(m.variables)
      {
        m.Add(AtMost(WeekWorks(shift, r, s, numWeeks), cap));
        SpanNext(old(m.constraints), 0, r, row);
      }
    }

    /** Applies each service group's run and staffing rules; group i is
        `range(numElectives + sum(serviceBreakdown[:i]), ... + serviceBreakdown[i])`. */
    method ApplyServiceGroups()
      requires Valid()
      modifies m
      ensures m.constraints == old(m.constraints)
        + GroupRecordsUpTo(numResidents, numRotations, numElectives, numWeeks, 5)
      ensures m.variables == old(m.variables)
    {
      var serviceBreakdown := [num2_4, num2_40, num24_4, num4_2, num4_1];
      var wkRules := [2, 2, 24, 4, 4];
      var resRules := [4, 40, 4, 2, 1];
      assert serviceBreakdown == ServiceBreakdown(numRotations, numElectives);
      assert wkRules == WK_RULES && resRules == RES_RULES;
      for i := 0 to |serviceBreakdown|
        invariant m.constraints == old(m.constraints)
          + GroupRecordsUpTo(numResidents, numRotations, numElectives, numWeeks, i)
        invariant m.variables == old(m.variables)
      {
        var servIndStart := numElectives + Sum(serviceBreakdown[..i]);
        var lo, hi := servIndStart, servIndStart + serviceBreakdown[i];
        assert lo == GroupStart(numRotations, numElectives, i);
        assert hi == GroupEnd(numRotations, numElectives, i);
        GroupInRange(numRotations, numElectives, i);
        ShiftTableSlice(shift, numResidents, numRotations, numWeeks, lo, hi);
        ghost var before := GroupRecordsUpTo(numResidents, numRotations, numElectives, numWeeks, i);
        ghost var group := ServiceRecords(WK_RULES[i], numWeeks, RES_RULES[i], lo, hi, numResidents);
        ApplyServiceRules(wkRules[i], numWeeks, resRules[i], lo, hi, numResidents, shift);
        SeqAssoc(old(m.constraints), before, group);
      }
    }

    /** The rest rule for every resident, over all of the resident's cells. */
    method AddRestRules()
      requires Valid()
      modifies m
      ensures m.constraints == old(m.constraints) + Span(0, numResidents, RestFn(numRotations, numWeeks))
      ensures m.variables == old(m.variables)
    {
      var hardMin, softMin, minCost, softMax, hardMax, maxCost := 10, 11, 10, 11, 12, 10;
      for r := 0 to numResidents
        invariant m.constraints == old(m.constraints) + Span(0, r, RestFn(numRotations, numWeeks))
        invariant m.variables == old(m.variables)
      {
        var works := AllWorks(shift, r, numRotations, numWeeks);
        m.Add(SoftSum(works, hardMin, softMin, minCost, softMax, hardMax, maxCost));
        SpanNext(old(m.constraints), 0, r, RestFn(numRotations, numWeeks));
      }
    }

    /** Builds the whole model: the cohort rules, the structural rules, the
        service-group rules and the rest rules, in the source's order. */
    method BuildModel()
      requires Valid()
      modifies m
      ensures m.constraints == old(m.constraints)
        + MainRecords(numResidents, numRotations, numWeeks, numElectives)
      ensures m.variables == old(m.variables) + Grid(0, numResidents, 0, numWeeks, OnRotationFn())
    {
      var R, S, W, E := numResidents, numRotations, numWeeks, numElectives;
      ghost var c0 := m.constraints;
      ghost var recs := ResidentRecords(R, W);
      CohortCells(shift, R, S, W);
      ApplyResidentRules(m, numWeeks, shift, numResidents);
      AddElectiveBlocks();
      SeqAssoc(c0, recs, Grid(0, R, 0, E, ElectiveRunFn(W)));
      recs := recs + Grid(0, R, 0, E, ElectiveRunFn(W));
      AddOnRotation();
      SeqAssoc(c0, recs, Grid(0, R, 0, W, OnRotationLinkFn(S)));
      recs := recs + Grid(0, R, 0, W, OnRotationLinkFn(S));
      AddOneRotationPerWeek();
      SeqAssoc(c0, recs, Grid(0, R, 0, W, OneRotationFn(S)));
      recs := recs + Grid(0, R, 0, W, OneRotationFn(S));
      AddHardServiceCaps();
      SeqAssoc(c0, recs, Grid(E, S, 0, R, HardServiceCapFn(W)));
      recs := recs + Grid(E, S, 0, R, HardServiceCapFn(W));
      AddElectiveCaps();
      SeqAssoc(c0, recs, Grid(0, E, 0, R, ElectiveCapFn(W)));
      recs := recs + Grid(0, E, 0, R, ElectiveCapFn(W));
      ApplyServiceGroups();
      SeqAssoc(c0, recs, GroupRecordsUpTo(R, S, E, W, 5));
      recs := recs + GroupRecordsUpTo(R, S, E, W, 5);
      AddRestRules();
      SeqAssoc(c0, recs, Span(0, R, RestFn(S, W)));
    }
  }

  /** The service group boundaries: electives end at E, then [E, E+1),
      [E+1, E+2), [E+2, E+4), [E+4, E+6), [E+6, S). */
  lemma ServiceGroupBounds(S: int, E: int)
    ensures GroupStart(S, E, 0) == E && GroupStart(S, E, 1) == E + 1
    ensures GroupStart(S, E, 2) == E + 2 && GroupStart(S, E, 3) == E + 4
    ensures GroupStart(S, E, 4) == E + 6 && GroupEnd(S, E, 4) == S
  {
    var sb := ServiceBreakdown(S, E);
    assert sb[..0] == [];
    assert sb[..1] == [1];
    assert sb[..2] == [1, 1];
    assert sb[..3] == [1, 1, 2];
    assert sb[..4] == [1, 1, 2, 2];
    assert [1, 1, 2, 2][..3] == [1, 1, 2];
    assert [1, 1, 2][..2] == [1, 1];
    assert [1, 1][..1] == [1];
  }

  /** With at least six hard services, every service group lies within the
      hard services `range(E, S)`. */
  lemma GroupInRange(S: int, E: int, i: int)
    requires E + 6 <= S && 0 <= i < 5
    ensures E <= GroupStart(S, E, i) <= GroupEnd(S, E, i) <= S
  {
    var sb := ServiceBreakdown(S, E);
    assert NonNegative(sb);
    ServiceGroupBounds(S, E);
    Adjacent(sb, 4);
    InsideTotal(sb, i);
  }

  /** Appending two record lists one after the other appends their concatenation. */
  lemma SeqAssoc<T>(a: seq<T>, b: seq<T>, c: seq<T>)
    ensures (a + b) + c == a + (b + c)
  {
  }

  /** A complete grid has every cell of the rotations `range(lo, hi)`. */
  lemma ShiftTableSlice(shift: ShiftMap, R: int, S: int, W: int, lo: int, hi: int)
    requires ShiftTable(shift, R, S, W) && 0 <= lo && hi <= S
    ensures forall r, s, w ::
      (0 <= r < R && lo <= s < hi && 0 <= w < W) ==> ((r, s, w) in shift && shift[(r, s, w)] == Shift(r, s, w))
  {
  }

  /** A complete grid of at least 10 residents, 2 rotations and 10 weeks has
      the cells the cohort rules read. */
  lemma CohortCells(shift: ShiftMap, R: int, S: int, W: int)
    requires ShiftTable(shift, R, S, W) && R >= 10 && S >= 2 && W >= 10
    ensures forall r, w :: 0 <= r < 6 && 0 <= w < W ==> ((r, PRIMARY_CARE, w) in shift && shift[(r, PRIMARY_CARE, w)] == Shift(r, PRIMARY_CARE, w))
    ensures forall r, w :: 6 <= r < 10 && 8 <= w < 10 ==> ((r, CHIEF, w) in shift && shift[(r, CHIEF, w)] == Shift(r, CHIEF, w))
  {
  }
}
