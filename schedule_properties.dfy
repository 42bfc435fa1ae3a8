/** What every assignment satisfying the records `main` adds has: the
    structural rules (one rotation per week, `on_rotation` as the "on some
    rotation" flag, the service and elective caps), the cohort rules, the
    staffing minimums of the service groups, and the shape of the cohort and
    service-group partitions. */
module ScheduleProperties {
  import opened CpSat
  import opened Partition
  import opened Scheduling

  // ---------------------------------------------------------------------
  // The variable lists

  /** Resident r's cells for the rest rule are exactly the S * W cells of
      resident r, each once. */
  lemma {:induction false} AllWorkVarsCells(r: int, S: nat, W: nat, v: Var)
    ensures |AllWorkVars(r, S, W)| == S * W
    ensures v in AllWorkVars(r, S, W) <==> v.Shift? && v.r == r && 0 <= v.s < S && 0 <= v.w < W
  {
    if W > 0 {
      AllWorkVarsCells(r, S, W - 1, v);
      var row := RotationVars(r, W - 1, S);
      assert v in row <==> v.Shift? && v.r == r && 0 <= v.s < S && v.w == W - 1 by {
        if v.Shift? && v.r == r && 0 <= v.s < S && v.w == W - 1 {
          assert row[v.s] == v;
        }
      }
    }
  }

  // ---------------------------------------------------------------------
  // Structural rules

  /** A resident is on at most one rotation in any week. */
  lemma OneRotationPerWeek(a: Assignment, R: nat, S: nat, W: nat, E: nat,
                           r: int, w: int, s1: int, s2: int)
    requires Holds(a, MainRecords(R, S, W, E))
    requires 0 <= r < R && 0 <= w < W && 0 <= s1 < S && 0 <= s2 < S
    requires a(Shift(r, s1, w)) && a(Shift(r, s2, w))
    ensures s1 == s2
  {
    var vs := RotationVars(r, w, S);
    GridHas(0, R, 0, W, OneRotationFn(S), r, w);
    assert Sat(a, AtMost(vs, 1));
    assert vs[s1] == Shift(r, s1, w) && vs[s2] == Shift(r, s2, w);
    CountAtMostOne(a, vs, s1, s2);
  }

  /** `on_rotation[r, w]` is true exactly when resident r is on some rotation
      in week w. */
  lemma OnRotationMeaning(a: Assignment, R: nat, S: nat, W: nat, E: nat, r: int, w: int)
    requires Holds(a, MainRecords(R, S, W, E))
    requires 0 <= r < R && 0 <= w < W
    ensures a(OnRotation(r, w)) <==> exists s :: 0 <= s < S && a(Shift(r, s, w))
  {
    var vs := RotationVars(r, w, S);
    GridHas(0, R, 0, W, OnRotationLinkFn(S), r, w);
    assert Sat(a, EqualsSum(OnRotation(r, w), vs));
    CountPositive(a, vs);
    if exists s :: 0 <= s < S && a(Shift(r, s, w)) {
      var s :| 0 <= s < S && a(Shift(r, s, w));
      assert a(vs[s]);
    }
    if a(OnRotation(r, w)) {
      var i :| 0 <= i < |vs| && a(vs[i]);
      assert a(Shift(r, i, w));
    }
  }

  /** The `on_rotation` links alone already allow at most one rotation per
      resident and week, since a boolean sums to 0 or 1. */
  lemma LinksBoundRotations(a: Assignment, R: nat, S: nat, W: nat, r: int, w: int)
    requires Holds(a, Grid(0, R, 0, W, OnRotationLinkFn(S)))
    requires 0 <= r < R && 0 <= w < W
    ensures Count(a, RotationVars(r, w, S)) <= 1
  {
    GridHas(0, R, 0, W, OnRotationLinkFn(S), r, w);
    assert Sat(a, EqualsSum(OnRotation(r, w), RotationVars(r, w, S)));
  }

  /** A resident does each hard service for at most 4 weeks. */
  lemma HardServiceCap(a: Assignment, R: nat, S: nat, W: nat, E: nat, r: int, s: int)
    requires Holds(a, MainRecords(R, S, W, E))
    requires 0 <= r < R && E <= s < S
    ensures Count(a, WeekVars(r, s, W)) <= 4
  {
    GridHas(E, S, 0, R, HardServiceCapFn(W), s, r);
    assert Sat(a, AtMost(WeekVars(r, s, W), 4));
  }

  /** A resident does each elective for at most 2 weeks. */
  lemma ElectiveCap(a: Assignment, R: nat, S: nat, W: nat, E: nat, r: int, e: int)
    requires Holds(a, MainRecords(R, S, W, E))
    requires 0 <= r < R && 0 <= e < E
    ensures Count(a, WeekVars(r, e, W)) <= 2
  {
    GridHas(0, E, 0, R, ElectiveCapFn(W), e, r);
    assert Sat(a, AtMost(WeekVars(r, e, W), 2));
  }

  // ---------------------------------------------------------------------
  // Cohort rules

  /** The cohort records: one primary-care minimum for each of residents 0
      to 5 (the two primary-care cohorts), then one chief window for each of
      residents 6 to 9; the normal cohorts get none. */
  lemma ResidentRecordsShape(n: int, W: nat)
    ensures ResidentRecords(n, W)
      == Span(0, 4, PrimaryCareFn(W)) + Span(4, 6, PrimaryCareFn(W)) + Span(6, 10, ChiefRecord)
  {
    var bd := ResidentBreakdown(n);
    CohortFacts(n, 0);
    CohortFacts(n, 1);
    CohortFacts(n, 2);
    CohortFacts(n, 3);
    CohortFacts(n, 4);
    CohortBounds(n);
    assert ResidentRecordsUpTo(n, W, 1) == Span(0, 4, PrimaryCareFn(W));
    assert ResidentRecordsUpTo(n, W, 2) == Span(0, 4, PrimaryCareFn(W)) + Span(4, 6, PrimaryCareFn(W));
    assert ResidentRecordsUpTo(n, W, 3) == ResidentRecordsUpTo(n, W, 2) + Span(6, 10, ChiefRecord);
    assert ResidentRecordsUpTo(n, W, 4) == ResidentRecordsUpTo(n, W, 3);
  }

  /** A record is a cohort record exactly when it is the primary-care minimum
      of a resident in 0 to 5 or the chief window of a resident in 6 to 9,
      whatever the number of residents. */
  lemma ResidentRecordsExactly(n: int, W: nat, c: Constraint)
    ensures c in ResidentRecords(n, W) <==>
      (exists r :: 0 <= r < 6 && c == PrimaryCareRecord(W, r))
      || (exists r :: 6 <= r < 10 && c == ChiefRecord(r))
  {
    ResidentRecordsShape(n, W);
    if c in Span(0, 4, PrimaryCareFn(W)) {
      SpanOnly(0, 4, PrimaryCareFn(W), c);
    }
    if c in Span(4, 6, PrimaryCareFn(W)) {
      SpanOnly(4, 6, PrimaryCareFn(W), c);
    }
    if c in Span(6, 10, ChiefRecord) {
      SpanOnly(6, 10, ChiefRecord, c);
    }
    if exists r :: 0 <= r < 6 && c == PrimaryCareRecord(W, r) {
      var r :| 0 <= r < 6 && c == PrimaryCareRecord(W, r);
      if r < 4 {
        SpanHas(0, 4, PrimaryCareFn(W), r);
      } else {
        SpanHas(4, 6, PrimaryCareFn(W), r);
      }
    }
    if exists r :: 6 <= r < 10 && c == ChiefRecord(r) {
      var r :| 6 <= r < 10 && c == ChiefRecord(r);
      SpanHas(6, 10, ChiefRecord, r);
    }
  }

  /** Each primary-care resident is on primary care for at least
      MIN_PRIMARY_CARE_WKS weeks. */
  lemma PrimaryCareMinimum(a: Assignment, R: nat, S: nat, W: nat, E: nat, r: int)
    requires Holds(a, MainRecords(R, S, W, E))
    requires 0 <= r < 6
    ensures Count(a, WeekVars(r, PRIMARY_CARE, W)) >= MIN_PRIMARY_CARE_WKS
  {
    ResidentRecordsExactly(R, W, PrimaryCareRecord(W, r));
    assert Sat(a, PrimaryCareRecord(W, r));
  }

  /** Each chief is on the chief service in both weeks 8 and 9. */
  lemma ChiefWeeks(a: Assignment, R: nat, S: nat, W: nat, E: nat, r: int)
    requires Holds(a, MainRecords(R, S, W, E))
    requires 6 <= r < 10
    ensures a(Shift(r, CHIEF, 8)) && a(Shift(r, CHIEF, 9))
  {
    var vs := ChiefWindowVars(r);
    ResidentRecordsExactly(R, W, ChiefRecord(r));
    assert Sat(a, ChiefRecord(r));
    CountAll(a, vs);
    assert vs[0] == Shift(r, CHIEF, 8) && vs[1] == Shift(r, CHIEF, 9);
  }

  /** With at least 44 residents the cohorts split `range(n)`: each resident
      is in exactly one cohort. */
  lemma CohortsPartition(n: int, r: int)
    requires n >= 44 && 0 <= r < n
    ensures exists i :: 0 <= i < 5 && Start(ResidentBreakdown(n), i) <= r < End(ResidentBreakdown(n), i)
    ensures forall i, j ::
      (&& 0 <= i < 5 && 0 <= j < 5
       && Start(ResidentBreakdown(n), i) <= r < End(ResidentBreakdown(n), i)
       && Start(ResidentBreakdown(n), j) <= r < End(ResidentBreakdown(n), j)) ==> i == j
  {
    var bd := ResidentBreakdown(n);
    assert NonNegative(bd);
    CohortBounds(n);
    Adjacent(bd, 4);
    Cover(bd, r);
    forall i, j | 0 <= i < 5 && 0 <= j < 5 && Start(bd, i) <= r < End(bd, i) && Start(bd, j) <= r < End(bd, j)
      ensures i == j
    {
      UniqueBlock(bd, r, i, j);
    }
  }

  /** With fewer than 44 residents the last cohort has negative size and
      the cohort ranges reach past the last resident. */
  lemma CohortsOverrun(n: int)
    requires n < 44
    ensures ResidentBreakdown(n)[4] < 0
    ensures End(ResidentBreakdown(n), 3) > n
  {
    CohortBounds(n);
    Adjacent(ResidentBreakdown(n), 3);
  }

  // ---------------------------------------------------------------------
  // Service groups

  /** With at least six hard services the service groups split the hard
      services `range(E, S)`: each is in exactly one group. */
  lemma ServiceGroupsPartition(S: int, E: int, s: int)
    requires E + 6 <= S && E <= s < S
    ensures exists i :: 0 <= i < 5 && GroupStart(S, E, i) <= s < GroupEnd(S, E, i)
    ensures forall i, j ::
      (&& 0 <= i < 5 && 0 <= j < 5
       && GroupStart(S, E, i) <= s < GroupEnd(S, E, i)
       && GroupStart(S, E, j) <= s < GroupEnd(S, E, j)) ==> i == j
  {
    var sb := ServiceBreakdown(S, E);
    assert NonNegative(sb);
    ServiceGroupBounds(S, E);
    Adjacent(sb, 4);
    Cover(sb, s - E);
    forall i, j | 0 <= i < 5 && 0 <= j < 5 && GroupStart(S, E, i) <= s < GroupEnd(S, E, i)
      && GroupStart(S, E, j) <= s < GroupEnd(S, E, j)
      ensures i == j
    {
      UniqueBlock(sb, s - E, i, j);
    }
  }

  /** The records of one service group are exactly its run rule for every
      (resident, service) and its staffing minimum for every (service,
      staffed week). */
  lemma ServiceRecordsExactly(k: int, W: nat, n: int, lo: int, hi: int, R: nat, c: Constraint)
    ensures c in ServiceRecords(k, W, n, lo, hi, R) <==>
      (exists r, s :: 0 <= r < R && lo <= s < hi
         && c == (if k == 24 then OnlyTwoOrFourSequence(WeekVars(r, s, W), 4)
                  else HardSequenceLen(WeekVars(r, s, W), k)))
      || (exists s, w :: lo <= s < hi && 0 <= w < StaffedWeeks(n, W)
            && c == AtLeast(ResidentVars(R, s, w), StaffingMin(n)))
  {
    var runs := RunFn(k, W);
    var staffing := StaffingFn(n, R);
    if c in Grid(0, R, lo, hi, runs) {
      GridOnly(0, R, lo, hi, runs, c);
    }
    if c in Grid(lo, hi, 0, StaffedWeeks(n, W), staffing) {
      GridOnly(lo, hi, 0, StaffedWeeks(n, W), staffing, c);
    }
    if exists r, s :: 0 <= r < R && lo <= s < hi
         && c == (if k == 24 then OnlyTwoOrFourSequence(WeekVars(r, s, W), 4)
                  else HardSequenceLen(WeekVars(r, s, W), k)) {
      var r, s :| 0 <= r < R && lo <= s < hi
         && c == (if k == 24 then OnlyTwoOrFourSequence(WeekVars(r, s, W), 4)
                  else HardSequenceLen(WeekVars(r, s, W), k));
      GridHas(0, R, lo, hi, runs, r, s);
    }
    if exists s, w :: lo <= s < hi && 0 <= w < StaffedWeeks(n, W)
            && c == AtLeast(ResidentVars(R, s, w), StaffingMin(n)) {
      var s, w :| lo <= s < hi && 0 <= w < StaffedWeeks(n, W)
            && c == AtLeast(ResidentVars(R, s, w), StaffingMin(n));
      GridHas(lo, hi, 0, StaffedWeeks(n, W), staffing, s, w);
    }
  }

  /** A staffing record of the night-float group (staffing rule 40) covers a
      week of the first half only, and asks for 4 residents. */
  lemma NightFloatFirstHalf(k: int, W: nat, lo: int, hi: int, R: nat, vs: seq<Var>, bound: int)
    requires AtLeast(vs, bound) in ServiceRecords(k, W, 40, lo, hi, R)
    ensures bound == 4
    ensures exists s, w :: lo <= s < hi && 0 <= w < W / 2 && vs == ResidentVars(R, s, w)
  {
    ServiceRecordsExactly(k, W, 40, lo, hi, R, AtLeast(vs, bound));
  }

  /** The records of group i are among the records of the first k groups. */
  lemma {:induction false} GroupRecordsHas(R: nat, S: int, E: int, W: nat, k: int, i: int, c: Constraint)
    requires 0 <= i < k <= 5
    requires c in ServiceRecords(WK_RULES[i], W, RES_RULES[i], GroupStart(S, E, i), GroupEnd(S, E, i), R)
    ensures c in GroupRecordsUpTo(R, S, E, W, k)
  {
    if i < k - 1 {
      GroupRecordsHas(R, S, E, W, k - 1, i, c);
    }
  }

  /** Group i's staffing minimum holds on each of its services in each
      staffed week. */
  lemma GroupStaffing(a: Assignment, R: nat, S: nat, W: nat, E: nat, i: int, s: int, w: int)
    requires Holds(a, MainRecords(R, S, W, E))
    requires 0 <= i < 5 && GroupStart(S, E, i) <= s < GroupEnd(S, E, i)
    requires 0 <= w < StaffedWeeks(RES_RULES[i], W)
    ensures Count(a, ResidentVars(R, s, w)) >= StaffingMin(RES_RULES[i])
  {
    var c := AtLeast(ResidentVars(R, s, w), StaffingMin(RES_RULES[i]));
    ServiceRecordsExactly(WK_RULES[i], W, RES_RULES[i], GroupStart(S, E, i), GroupEnd(S, E, i), R, c);
    GroupRecordsHas(R, S, E, W, 5, i, c);
    assert Sat(a, c);
  }

  /** The staffing minimums: at least 4 residents on the first hard
      service every week; at least 4 on the second (night float) in each
      week of the first half; at least 4 on the third and fourth, 2 on the
      fifth and sixth, and 1 on each remaining hard service every week. */
  lemma StaffingMinimum(a: Assignment, R: nat, S: nat, W: nat, E: nat, s: int, w: int)
    requires Holds(a, MainRecords(R, S, W, E))
    requires E + 6 <= S && E <= s < S && 0 <= w < W
    ensures s == E ==> Count(a, ResidentVars(R, s, w)) >= 4
    ensures s == E + 1 && w < W / 2 ==> Count(a, ResidentVars(R, s, w)) >= 4
    ensures E + 2 <= s < E + 4 ==> Count(a, ResidentVars(R, s, w)) >= 4
    ensures E + 4 <= s < E + 6 ==> Count(a, ResidentVars(R, s, w)) >= 2
    ensures E + 6 <= s ==> Count(a, ResidentVars(R, s, w)) >= 1
  {
    ServiceGroupBounds(S, E);
    var sb := ServiceBreakdown(S, E);
    Adjacent(sb, 0);
    Adjacent(sb, 1);
    Adjacent(sb, 2);
    Adjacent(sb, 3);
    if s == E {
      GroupStaffing(a, R, S, W, E, 0, s, w);
    } else if s == E + 1 {
      if w < W / 2 {
        GroupStaffing(a, R, S, W, E, 1, s, w);
      }
    } else if s < E + 4 {
      GroupStaffing(a, R, S, W, E, 2, s, w);
    } else if s < E + 6 {
      GroupStaffing(a, R, S, W, E, 3, s, w);
    } else {
      GroupStaffing(a, R, S, W, E, 4, s, w);
    }
  }
}
