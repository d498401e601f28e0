/**
 * The scalar arithmetic the simulator borrows from Python and NumPy, over
 * Dafny's exact `real` and `int`: truncating `int()`, the float `%` with a
 * positive modulus, sums of sequences and `np.roll` along one axis.
 */
module Numeric {

  /**
   * The transcendental functions the simulator takes from NumPy. They are
   * parameters of the model: every property proved here holds whatever
   * functions these are.
   */
  datatype Math = Math(cos: real -> real, sin: real -> real, ln: real -> real, sqrt: real -> real)

  /** Python's `int(x)` on a float: truncation toward zero. */
  function Trunc(x: real): (r: int)
    ensures 0.0 <= x ==> 0 <= r && r as real <= x < r as real + 1.0
    ensures x < 0.0 ==> r <= 0 && r as real - 1.0 < x <= r as real
  {
    if x >= 0.0 then x.Floor else -((-x).Floor)
  }

  /**
   * Python's `v % m` on floats for a positive modulus, by whole turns of `m`:
   * add `m` while below 0, take it away while at or above `m`. The result is
   * the one value in `[0, m)` that differs from `v` by a whole multiple of
   * `m`; `RealModIsRemainder` shows it is `v - m * floor(v / m)`.
   */
  function RealMod(v: real, m: real): (r: real)
    requires 0.0 < m
    ensures 0.0 <= r < m
    decreases Turns(v, m)
  {
    TurnsShrink(v, m);
    if v < 0.0 then
      RealMod(v + m, m)
    else if v >= m then
      RealMod(v - m, m)
    else
      v
  }

  /** How many turns of `m` bring `v` into `[0, m)`. */
  function Turns(v: real, m: real): nat
    requires 0.0 < m
  {
    if v < 0.0 then
      QuotientNonNegative(-v, m);
      ((-v) / m).Floor + 1
    else if v >= m then
      QuotientAtLeastOne(v, m);
      (v / m).Floor
    else
      0
  }

  /** Each turn brings `v` one step closer to `[0, m)`. */
  lemma TurnsShrink(v: real, m: real)
    requires 0.0 < m
    ensures v < 0.0 ==> Turns(v + m, m) < Turns(v, m)
    ensures v >= m ==> Turns(v - m, m) < Turns(v, m)
  {
    if v < 0.0 {
      ShiftQuotient(-v, m);
    } else if v >= m {
      ShiftQuotient(v, m);
    }
  }

  lemma ShiftQuotient(u: real, m: real)
    requires 0.0 < m
    ensures (u - m) / m == u / m - 1.0 && (u + m) / m == u / m + 1.0
  {
    var q := u / m;
    assert m * q == u;
    QuotientOfProduct(m, q - 1.0, u - m);
    QuotientOfProduct(m, q + 1.0, u + m);
  }

  /** Dividing `m * q` by `m` gives back `q`. */
  lemma QuotientOfProduct(m: real, q: real, u: real)
    requires 0.0 < m && m * q == u
    ensures u / m == q
  {
  }

  lemma QuotientNonNegative(u: real, m: real)
    requires 0.0 <= u && 0.0 < m
    ensures 0.0 <= u / m
  {
    FactorNonNegative(m, u / m, u);
  }

  lemma FactorNonNegative(m: real, q: real, u: real)
    requires 0.0 < m && m * q == u && 0.0 <= u
    ensures 0.0 <= q
  {
    if q < 0.0 {
      MulMonotone(m, q, 0.0);
    }
  }

  lemma QuotientAtLeastOne(u: real, m: real)
    requires 0.0 < m <= u
    ensures 1.0 <= u / m
  {
    FactorAtLeastOne(m, u / m, u);
  }

  lemma FactorAtLeastOne(m: real, q: real, u: real)
    requires 0.0 < m <= u && m * q == u
    ensures 1.0 <= q
  {
    if q < 1.0 {
      MulMonotone(m, q, 1.0);
    }
  }

  /** The turns are whole: `RealMod(v, m)` is `v - m * floor(v / m)`, as Python defines the float `%`. */
  lemma {:induction false} RealModIsRemainder(v: real, m: real)
    requires 0.0 < m
    ensures RealMod(v, m) == v - m * (v / m).Floor as real
    decreases Turns(v, m), 1
  {
    if v < 0.0 {
      TurnUp(v, m);
    } else if v >= m {
      TurnDown(v, m);
    } else {
      QuotientInUnit(v, m);
      assert (v / m).Floor == 0;
    }
  }

  /** The step below zero: `v` has the remainder of `v + m`. */
  lemma {:induction false} TurnUp(v: real, m: real)
    requires 0.0 < m && v < 0.0
    ensures RealMod(v, m) == v - m * (v / m).Floor as real
    decreases Turns(v, m), 0
  {
    TurnsShrink(v, m);
    RealModIsRemainder(v + m, m);
    ShiftQuotient(v, m);
    TurnRemainder(v, m, v / m, (v + m) / m);
  }

  /** The step at or above `m`: `v` has the remainder of `v - m`. */
  lemma {:induction false} TurnDown(v: real, m: real)
    requires 0.0 < m <= v
    ensures RealMod(v, m) == v - m * (v / m).Floor as real
    decreases Turns(v, m), 0
  {
    TurnsShrink(v, m);
    RealModIsRemainder(v - m, m);
    ShiftQuotient(v, m);
    TurnRemainder(v - m, m, (v - m) / m, v / m);
    assert (v - m) + m == v;
  }

  /** Adding one turn `m` to `u` adds one to the quotient and keeps the remainder. */
  lemma TurnRemainder(u: real, m: real, q: real, q': real)
    requires q' == q + 1.0
    ensures (u + m) - m * q'.Floor as real == u - m * q.Floor as real
  {
    assert q'.Floor == q.Floor + 1;
    var f := q.Floor as real;
    assert m * (f + 1.0) == m * f + m;
  }

  lemma MulMonotone(m: real, a: real, b: real)
    requires 0.0 < m && a <= b
    ensures m * a <= m * b
    ensures a < b ==> m * a < m * b
  {
  }

  /** If `m * q` lies in `[0, m)` for a positive `m`, then `q` lies in `[0, 1)`. */
  lemma FactorInUnit(m: real, q: real, v: real)
    requires 0.0 < m && m * q == v && 0.0 <= v < m
    ensures 0.0 <= q < 1.0
  {
    if q >= 1.0 {
      MulMonotone(m, 1.0, q);
    }
    if q < 0.0 {
      MulMonotone(m, q, 0.0);
    }
  }

  lemma QuotientInUnit(v: real, m: real)
    requires 0.0 < m && 0.0 <= v < m
    ensures 0.0 <= v / m < 1.0
  {
    FactorInUnit(m, v / m, v);
  }

  lemma QuotientOfMultiple(m: real, f: real)
    requires 0.0 < m
    ensures (m * f) / m == f
  {
  }

  /** A value already inside `[0, m)` is its own remainder. */
  lemma RealModOfInRange(v: real, m: real)
    requires 0.0 < m && 0.0 <= v < m
    ensures RealMod(v, m) == v
  {
  }

  /** The sum of a sequence of reals, first element first. */
  function Sum(s: seq<real>): real {
    if |s| == 0 then 0.0 else s[0] + Sum(s[1..])
  }

  lemma {:induction false} SumConcat(a: seq<real>, b: seq<real>)
    ensures Sum(a + b) == Sum(a) + Sum(b)
  {
    if |a| == 0 {
      assert a + b == b;
    } else {
      assert (a + b)[1..] == a[1..] + b;
      SumConcat(a[1..], b);
    }
  }

  /** Summing is linear: the sum of an elementwise combination is the combination of the sums. */
  lemma {:induction false} SumLinear(a: seq<real>, b: seq<real>, c: seq<real>, p: real, q: real)
    requires |a| == |b| == |c|
    requires forall i :: 0 <= i < |c| ==> c[i] == p * a[i] + q * b[i]
    ensures Sum(c) == p * Sum(a) + q * Sum(b)
  {
    if |c| > 0 {
      SumLinear(a[1..], b[1..], c[1..], p, q);
      assert Sum(c) == c[0] + Sum(c[1..]);
      assert p * Sum(a) + q * Sum(b) == (p * a[0] + q * b[0]) + (p * Sum(a[1..]) + q * Sum(b[1..])) by {
        assert Sum(a) == a[0] + Sum(a[1..]);
        assert Sum(b) == b[0] + Sum(b[1..]);
      }
    }
  }

  /** The sum of `n` copies of `v` is `n * v`. */
  lemma {:induction false} SumConstant(s: seq<real>, v: real)
    requires forall i :: 0 <= i < |s| ==> s[i] == v
    ensures Sum(s) == |s| as real * v
  {
    if |s| > 0 {
      SumConstant(s[1..], v);
    }
  }

  /** Adding `a` to one element adds `a` to the sum. */
  lemma {:induction false} SumBumped(s: seq<real>, j: int, a: real)
    requires 0 <= j < |s|
    ensures Sum(s[j := s[j] + a]) == Sum(s) + a
  {
    if j > 0 {
      assert s[j := s[j] + a][1..] == s[1..][j - 1 := s[1..][j - 1] + a];
      SumBumped(s[1..], j - 1, a);
    } else {
      assert s[j := s[j] + a][1..] == s[1..];
    }
  }

  /** The wrapped predecessor and successor of an index in `[0, n)`. */
  function Prev(i: int, n: int): (k: int)
    requires 0 <= i < n
    ensures 0 <= k < n
  {
    if i == 0 then n - 1 else i - 1
  }

  function Next(i: int, n: int): (k: int)
    requires 0 <= i < n
    ensures 0 <= k < n
  {
    if i == n - 1 then 0 else i + 1
  }

  /** They are Python's `(i - 1) % n` and `(i + 1) % n`. */
  lemma PrevIsMod(i: int, n: int)
    requires 0 <= i < n
    ensures Prev(i, n) == (i - 1) % n
  {
  }

  lemma NextIsMod(i: int, n: int)
    requires 0 <= i < n
    ensures Next(i, n) == (i + 1) % n
  {
  }

  /**
   * `np.roll(s, shift)` on one axis for the two shifts the diffusion stencil
   * uses: with `shift == 1` element `i` of the result is element `i - 1` of
   * `s`, with `shift == -1` it is element `i + 1`, both around the cycle.
   */
  function Roll<T>(s: seq<T>, shift: int): (r: seq<T>)
    requires |s| > 0 && (shift == 1 || shift == -1)
    ensures |r| == |s|
  {
    seq(|s|, i requires 0 <= i < |s| => s[if shift == 1 then Prev(i, |s|) else Next(i, |s|)])
  }

  /** The two rolls written out piecewise. */
  lemma RollForward<T>(s: seq<T>)
    requires |s| > 0
    ensures Roll(s, 1) == [s[|s| - 1]] + s[..|s| - 1]
  {
    var n := |s|;
    var r, t := Roll(s, 1), [s[n - 1]] + s[..n - 1];
    assert forall i :: 0 <= i < n ==> r[i] == t[i];
  }

  lemma RollBackward<T>(s: seq<T>)
    requires |s| > 0
    ensures Roll(s, -1) == s[1..] + [s[0]]
  {
    var n := |s|;
    var r, t := Roll(s, -1), s[1..] + [s[0]];
    assert forall i :: 0 <= i < n ==> r[i] == t[i];
  }

  /** Rolling by one place either way moves elements around a cycle, so the sum is unchanged. */
  lemma SumRoll(s: seq<real>, shift: int)
    requires |s| > 0
    requires shift == 1 || shift == -1
    ensures Sum(Roll(s, shift)) == Sum(s)
  {
    var n := |s|;
    if shift == 1 {
      RollForward(s);
      SumConcat([s[n - 1]], s[..n - 1]);
      SumConcat(s[..n - 1], [s[n - 1]]);
      assert s[..n - 1] + [s[n - 1]] == s;
    } else {
      RollBackward(s);
      SumConcat(s[1..], [s[0]]);
      SumConcat([s[0]], s[1..]);
      assert [s[0]] + s[1..] == s;
    }
  }
}
