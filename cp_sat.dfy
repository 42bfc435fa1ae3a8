/** The part of the CP-SAT model the scheduler builds: boolean decision
    variables, the constraint records it adds, and what it means for an
    assignment of the variables to satisfy a record. */
module CpSat {

  /** A boolean decision variable, identified by what it stands for. The
      identity doubles as the variable's name, so two variables have the
      same name exactly when they are the same variable. */
  datatype Var =
    | Shift(r: int, s: int, w: int)   // resident r is on rotation s in week w
    | OnRotation(r: int, w: int)      // resident r is on some rotation in week w

  /** A solution: a truth value for every variable. */
  type Assignment = Var -> bool

  /** One call that adds a constraint to the model. The first three are
      linear constraints over booleans read as 0/1. The last three stand for
      calls into the constraint-encoding helpers; they keep their arguments
      and are given no meaning here. */
  datatype Constraint =
    | AtLeast(vars: seq<Var>, bound: int)          // sum(vars) >= bound
    | AtMost(vars: seq<Var>, bound: int)           // sum(vars) <= bound
    | EqualsSum(target: Var, vars: seq<Var>)       // target == sum(vars)
    | HardSequenceLen(works: seq<Var>, length: int)
    | OnlyTwoOrFourSequence(works: seq<Var>, hardMax: int)
    | SoftSum(works: seq<Var>, hardMin: int, softMin: int, minCost: int,
              softMax: int, hardMax: int, maxCost: int)

  /** Number of variables of `vs` that are true under `a` (with repeats). */
  function Count(a: Assignment, vs: seq<Var>): (n: nat)
    ensures n <= |vs|
  {
    if vs == [] then 0
    else Count(a, vs[..|vs| - 1]) + (if a(vs[|vs| - 1]) then 1 else 0)
  }

  /** The meaning of a record. Records for the encoding helpers constrain
      nothing in this model. */
  predicate Sat(a: Assignment, c: Constraint)
  {
    match c
    case AtLeast(vs, k) => Count(a, vs) >= k
    case AtMost(vs, k) => Count(a, vs) <= k
    case EqualsSum(t, vs) => (if a(t) then 1 else 0) == Count(a, vs)
    case _ => true
  }

  /** `a` satisfies every record of `cs`. */
  predicate Holds(a: Assignment, cs: seq<Constraint>)
  {
    forall c :: c in cs ==> Sat(a, c)
  }

  lemma {:induction false} CountPositive(a: Assignment, vs: seq<Var>)
    ensures Count(a, vs) > 0 <==> exists i :: 0 <= i < |vs| && a(vs[i])
  {
    if vs != [] {
      var init := vs[..|vs| - 1];
      CountPositive(a, init);
      if Count(a, init) > 0 {
        var i :| 0 <= i < |init| && a(init[i]);
        assert vs[i] == init[i];
      }
      if exists i :: 0 <= i < |vs| && a(vs[i]) {
        var i :| 0 <= i < |vs| && a(vs[i]);
        if i < |init| {
          assert init[i] == vs[i];
        }
      }
    }
  }

  lemma {:induction false} CountAll(a: Assignment, vs: seq<Var>)
    ensures Count(a, vs) == |vs| <==> forall i :: 0 <= i < |vs| ==> a(vs[i])
  {
    if vs != [] {
      var init := vs[..|vs| - 1];
      CountAll(a, init);
      if Count(a, vs) == |vs| {
        forall i | 0 <= i < |vs| ensures a(vs[i]) {
          if i < |init| {
            assert init[i] == vs[i];
          }
        }
      }
      if forall i :: 0 <= i < |vs| ==> a(vs[i]) {
        forall i | 0 <= i < |init| ensures a(init[i]) {
          assert init[i] == vs[i];
        }
      }
    }
  }

  /** Under a count of at most one, two true positions are the same one. */
  lemma {:induction false} CountAtMostOne(a: Assignment, vs: seq<Var>, i: int, j: int)
    requires Count(a, vs) <= 1
    requires 0 <= i < |vs| && 0 <= j < |vs| && a(vs[i]) && a(vs[j])
    ensures i == j
  {
    var init := vs[..|vs| - 1];
    if i < |vs| - 1 && j < |vs| - 1 {
      assert init[i] == vs[i] && init[j] == vs[j];
      CountAtMostOne(a, init, i, j);
    } else if i < |vs| - 1 || j < |vs| - 1 {
      var k := if i < |vs| - 1 then i else j;
      assert init[k] == vs[k];
      CountPositive(a, init);
    }
  }

  /** The builder: the model's variables and its constraint records, in the
      order they were created. */
  class CpModel {
    var variables: seq<Var>
    var constraints: seq<Constraint>

    constructor ()
      ensures variables == [] && constraints == []
    {
      variables := [];
      constraints := [];
    }

    /** Creates the boolean variable `v`. */
    method NewBoolVar(v: Var) returns (x: Var)
      modifies this
      ensures x == v
      ensures variables == old(variables) + [v]
      ensures constraints == old(constraints)
    {
      variables := variables + [v];
      x := v;
    }

    /** Adds the constraint `c`. */
    method Add(c: Constraint)
      modifies this
      ensures constraints == old(constraints) + [c]
      ensures variables == old(variables)
    {
      constraints := constraints + [c];
    }
  }

  /** No variable occurs twice. */
  predicate Distinct(vs: seq<Var>)
  {
    forall i, j :: 0 <= i < j < |vs| ==> vs[i] != vs[j]
  }

  /** `[f(i) for i in range(lo, hi)]`. */
  function Span<T>(lo: int, hi: int, f: int -> T): (xs: seq<T>)
    ensures |xs| == if hi <= lo then 0 else hi - lo
    decreases hi - lo
  {
    if hi <= lo then [] else Span(lo, hi - 1, f) + [f(hi - 1)]
  }

  /** `[f(i, j) for i in range(lo0, hi0) for j in range(lo1, hi1)]`: the
      records two nested `for` loops add, outer index first. */
  function Grid<T>(lo0: int, hi0: int, lo1: int, hi1: int, f: (int, int) -> T): seq<T>
    decreases hi0 - lo0
  {
    if hi0 <= lo0 then []
    else Grid(lo0, hi0 - 1, lo1, hi1, f) + Span(lo1, hi1, RowFn(f, hi0 - 1))
  }

  /** Row `i` of `f`, the records the inner loop adds for outer index `i`. */
  function RowFn<T>(f: (int, int) -> T, i: int): int -> T
  {
    j => f(i, j)
  }

  /** One more record at the end of a row. */
  lemma SpanNext<T>(pre: seq<T>, lo: int, j: int, f: int -> T)
    requires lo <= j
    ensures pre + Span(lo, j, f) + [f(j)] == pre + Span(lo, j + 1, f)
  {
  }

  /** A finished row completes one more row of the grid. */
  lemma GridNext<T>(pre: seq<T>, lo0: int, i: int, lo1: int, hi1: int, f: (int, int) -> T)
    requires lo0 <= i
    ensures pre + Grid(lo0, i, lo1, hi1, f) + Span(lo1, hi1, RowFn(f, i)) == pre + Grid(lo0, i + 1, lo1, hi1, f)
  {
  }

  lemma {:induction false} SpanHas<T>(lo: int, hi: int, f: int -> T, i: int)
    requires lo <= i < hi
    ensures f(i) in Span(lo, hi, f)
    decreases hi - lo
  {
    if i < hi - 1 {
      SpanHas(lo, hi - 1, f, i);
    }
  }

  lemma {:induction false} SpanOnly<T>(lo: int, hi: int, f: int -> T, x: T)
    requires x in Span(lo, hi, f)
    ensures exists i :: lo <= i < hi && x == f(i)
    decreases hi - lo
  {
    if x != f(hi - 1) {
      SpanOnly(lo, hi - 1, f, x);
    }
  }

  lemma {:induction false} GridHas<T>(lo0: int, hi0: int, lo1: int, hi1: int,
                                      f: (int, int) -> T, i: int, j: int)
    requires lo0 <= i < hi0 && lo1 <= j < hi1
    ensures f(i, j) in Grid(lo0, hi0, lo1, hi1, f)
    decreases hi0 - lo0
  {
    if i < hi0 - 1 {
      GridHas(lo0, hi0 - 1, lo1, hi1, f, i, j);
    } else {
      SpanHas(lo1, hi1, RowFn(f, hi0 - 1), j);
    }
  }

  lemma {:induction false} GridOnly<T>(lo0: int, hi0: int, lo1: int, hi1: int,
                                       f: (int, int) -> T, x: T)
    requires x in Grid(lo0, hi0, lo1, hi1, f)
    ensures exists i, j :: lo0 <= i < hi0 && lo1 <= j < hi1 && x == f(i, j)
    decreases hi0 - lo0
  {
    var row := RowFn(f, hi0 - 1);
    if x in Span(lo1, hi1, row) {
      SpanOnly(lo1, hi1, row, x);
      var j :| lo1 <= j < hi1 && x == row(j);
      assert x == f(hi0 - 1, j);
    } else {
      GridOnly(lo0, hi0 - 1, lo1, hi1, f, x);
    }
  }
}
