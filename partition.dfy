/** Splitting an index range into contiguous blocks by a list of block sizes:
    block `i` is `range(Start(sizes, i), End(sizes, i))`, where `Start` is
    `sum(sizes[:i])`. The scheduler splits residents into cohorts and
    rotations into service groups this way. */
module Partition {

  /** `sum(xs)`. */
  function Sum(xs: seq<int>): int
  {
    if xs == [] then 0 else Sum(xs[..|xs| - 1]) + xs[|xs| - 1]
  }

  /** First index of block `i`: `sum(sizes[:i])`. */
  function Start(sizes: seq<int>, i: int): int
    requires 0 <= i <= |sizes|
  {
    Sum(sizes[..i])
  }

  /** One past the last index of block `i`. */
  function End(sizes: seq<int>, i: int): int
    requires 0 <= i < |sizes|
  {
    Start(sizes, i) + sizes[i]
  }

  predicate NonNegative(sizes: seq<int>)
  {
    forall i :: 0 <= i < |sizes| ==> sizes[i] >= 0
  }

  /** Block `i + 1` starts where block `i` ends; the last block ends at the total. */
  lemma Adjacent(sizes: seq<int>, i: int)
    requires 0 <= i < |sizes|
    ensures Start(sizes, i + 1) == End(sizes, i)
    ensures i == |sizes| - 1 ==> End(sizes, i) == Sum(sizes)
  {
    assert sizes[..i + 1][..i] == sizes[..i];
    assert i == |sizes| - 1 ==> sizes[..i + 1] == sizes;
  }

  lemma {:induction false} StartMonotone(sizes: seq<int>, i: int, j: int)
    requires NonNegative(sizes)
    requires 0 <= i <= j <= |sizes|
    ensures Start(sizes, i) <= Start(sizes, j)
    decreases j - i
  {
    if i < j {
      StartMonotone(sizes, i, j - 1);
      Adjacent(sizes, j - 1);
    }
  }

  /** With non-negative sizes, earlier blocks lie wholly before later ones,
      so no index is in two blocks. */
  lemma Disjoint(sizes: seq<int>, i: int, j: int)
    requires NonNegative(sizes)
    requires 0 <= i < j < |sizes|
    ensures End(sizes, i) <= Start(sizes, j)
  {
    Adjacent(sizes, i);
    StartMonotone(sizes, i + 1, j);
  }

  lemma UniqueBlock(sizes: seq<int>, x: int, i: int, j: int)
    requires NonNegative(sizes)
    requires 0 <= i < |sizes| && Start(sizes, i) <= x < End(sizes, i)
    requires 0 <= j < |sizes| && Start(sizes, j) <= x < End(sizes, j)
    ensures i == j
  {
    if i < j {
      Disjoint(sizes, i, j);
    } else if j < i {
      Disjoint(sizes, j, i);
    }
  }

  /** With non-negative sizes, every index of `range(sum(sizes))` is in some block. */
  lemma {:induction false} Cover(sizes: seq<int>, x: int)
    requires NonNegative(sizes)
    requires 0 <= x < Sum(sizes)
    ensures exists i :: 0 <= i < |sizes| && Start(sizes, i) <= x < End(sizes, i)
  {
    var n := |sizes|;
    var init := sizes[..n - 1];
    assert sizes[..n] == sizes;
    Adjacent(sizes, n - 1);
    if x < Start(sizes, n - 1) {
      assert NonNegative(init) by {
        forall k | 0 <= k < |init| ensures init[k] >= 0 {
          assert init[k] == sizes[k];
        }
      }
      Cover(init, x);
      var i :| 0 <= i < |init| && Start(init, i) <= x < End(init, i);
      assert init[..i] == sizes[..i];
      assert init[i] == sizes[i];
      assert Start(sizes, i) <= x < End(sizes, i);
    } else {
      assert Start(sizes, n - 1) <= x < End(sizes, n - 1);
    }
  }

  /** Every index of every block is in `range(sum(sizes))`. */
  lemma InsideTotal(sizes: seq<int>, i: int)
    requires NonNegative(sizes)
    requires 0 <= i < |sizes|
    ensures 0 <= Start(sizes, i) && End(sizes, i) <= Sum(sizes)
  {
    StartMonotone(sizes, 0, i);
    StartMonotone(sizes, i + 1, |sizes|);
    Adjacent(sizes, i);
    assert sizes[..0] == [];
    assert sizes[..|sizes|] == sizes;
  }
}
