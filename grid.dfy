/**
 * The sampling grid of mrqcof: each of its three scan loops runs
 * `for (s = 1; s < dim; s += samp)`, so it visits 1, 1 + samp, 1 + 2*samp, ...
 * below dim (spm_brainwarp.c:95, 126, 159).
 */
module Grid {
  import opened Arith

  /** The coordinates start, start + step, ... that lie below limit, in loop order. */
  function GridFrom(start: nat, step: nat, limit: nat): (g: seq<nat>)
    requires step >= 1
    ensures forall j :: 0 <= j < |g| ==> start <= g[j] < limit
    decreases limit - start
  {
    if start >= limit then [] else [start] + GridFrom(start + step, step, limit)
  }

  /** The j-th visited coordinate is start + j * step. */
  lemma {:induction false} GridPoint(start: nat, step: nat, limit: nat, j: nat)
    requires step >= 1 && j < |GridFrom(start, step, limit)|
    ensures GridFrom(start, step, limit)[j] == start + j * step
    decreases limit - start
  {
    if j > 0 {
      GridPoint(start + step, step, limit, j - 1);
      assert (j - 1) * step + step == j * step;
    }
  }

  /**
   * The loop runs (limit - start - 1) / step + 1 times when start < limit and
   * not at all otherwise.
   */
  lemma {:induction false} GridCount(start: nat, step: nat, limit: nat)
    requires step >= 1
    ensures |GridFrom(start, step, limit)| == if start < limit then (limit - start - 1) / step + 1 else 0
    decreases limit - start
  {
    if start < limit {
      GridCount(start + step, step, limit);
      var n := limit - start - 1;
      if start + step < limit {
        DivModUnique(n, step, (n - step) / step + 1, (n - step) % step);
      } else {
        DivModUnique(n, step, 0, n);
      }
    }
  }

  /**
   * A coordinate is visited exactly when it lies in [start, limit) and is a
   * whole number of steps from start.
   */
  lemma {:induction false} GridMember(start: nat, step: nat, limit: nat, c: nat)
    requires step >= 1
    ensures c in GridFrom(start, step, limit) <==> start <= c < limit && (c - start) % step == 0
    decreases limit - start
  {
    if start < limit {
      var rest := GridFrom(start + step, step, limit);
      assert GridFrom(start, step, limit) == [start] + rest;
      GridMember(start + step, step, limit, c);
      if c >= start + step {
        ModShift(c - start - step, step);
      } else if c > start {
        DivModUnique(c - start, step, 0, c - start);
        assert c !in rest;
      } else if c == start {
        DivModUnique(0, step, 0, 0);
      }
    }
  }

  /** Adding one step does not change the remainder. */
  lemma ModShift(a: nat, step: nat)
    requires step >= 1
    ensures (a + step) % step == a % step
  {
    DivModUnique(a + step, step, a / step + 1, a % step);
  }

  /** Visited coordinates strictly increase, so no coordinate is visited twice. */
  lemma GridIncreasing(start: nat, step: nat, limit: nat, j: nat, k: nat)
    requires step >= 1 && j < k < |GridFrom(start, step, limit)|
    ensures GridFrom(start, step, limit)[j] < GridFrom(start, step, limit)[k]
  {
    GridPoint(start, step, limit, j);
    GridPoint(start, step, limit, k);
    MulNonNeg(k - j - 1, step);
    assert k * step == j * step + (k - j - 1) * step + step;
  }

  /** The loop from start at or beyond its limit visits nothing; otherwise it visits start first. */
  lemma GridUnfold(start: nat, step: nat, limit: nat)
    requires step >= 1
    ensures start >= limit ==> GridFrom(start, step, limit) == []
    ensures start < limit ==> GridFrom(start, step, limit) == [start] + GridFrom(start + step, step, limit)
  {
  }

  /** A coordinate b on the grid from start is a whole number of steps from it. */
  predicate OnStride(start: nat, step: nat, b: nat)
    requires step >= 1
  {
    start <= b && (b - start) % step == 0
  }

  /** A later coordinate on the stride lies at least one step further. */
  lemma StrideNext(start: nat, step: nat, b: nat)
    requires step >= 1 && OnStride(start, step, b) && start < b
    ensures start + step <= b && OnStride(start + step, step, b)
  {
    if b - start < step {
      DivModUnique(b - start, step, 0, b - start);
    }
    ModShift(b - start - step, step);
  }

  /**
   * After visiting the coordinates below a point b of the stride, the loop
   * visits b next: the coordinates below b + step are those below b, then b.
   */
  lemma {:induction false} GridSnoc(start: nat, step: nat, b: nat)
    requires step >= 1 && OnStride(start, step, b)
    ensures OnStride(start, step, b + step)
    ensures GridFrom(start, step, b + step) == GridFrom(start, step, b) + [b]
    decreases b - start
  {
    ModShift(b - start, step);
    if start < b {
      StrideNext(start, step, b);
      GridSnoc(start + step, step, b);
      assert [start] + (GridFrom(start + step, step, b) + [b]) == ([start] + GridFrom(start + step, step, b)) + [b];
    } else {
      assert GridFrom(start + step, step, b + step) == [];
    }
  }

  /** GridSnoc, stated for the loop's next coordinate b' = b + step. */
  lemma GridStep(start: nat, step: nat, b: nat, b': nat)
    requires step >= 1 && OnStride(start, step, b) && b' == b + step
    ensures OnStride(start, step, b')
    ensures GridFrom(start, step, b') == GridFrom(start, step, b) + [b]
  {
    GridSnoc(start, step, b);
  }

  /**
   * The loop stops at the first point b of the stride at or beyond limit (or
   * at start, if it does not run); the coordinates below b are then exactly
   * those below limit.
   */
  lemma {:induction false} GridClose(start: nat, step: nat, limit: nat, b: nat)
    requires step >= 1 && OnStride(start, step, b) && limit <= b && (b == start || b < limit + step)
    ensures GridFrom(start, step, b) == GridFrom(start, step, limit)
    decreases b - start
  {
    if start < b {
      StrideNext(start, step, b);
      GridClose(start + step, step, limit, b);
    }
  }
}
