/**
 * The trail grid as a value: a rectangle of real intensities, row index
 * first (NumPy's `grid[y, x]`). It defines the whole-grid operations
 * `TrailMap.update` performs, the single-cell deposit, and the two ways a
 * continuous coordinate picks a cell: truncate-then-wrap for deposits and
 * clamp-then-truncate for reads. The facts proved here are the
 * conservation, positivity and uniformity properties of one update.
 */
module Grids {
  import opened Numeric

  type Grid = seq<seq<real>>

  predicate Shaped(g: Grid, h: int, w: int) {
    |g| == h && forall i :: 0 <= i < |g| ==> |g[i]| == w
  }

  /** A non-empty rectangle. */
  predicate IsGrid(g: Grid) {
    |g| > 0 && |g[0]| > 0 && Shaped(g, |g|, |g[0]|)
  }

  predicate NonNegative(g: Grid) {
    forall i, j :: 0 <= i < |g| && 0 <= j < |g[i]| ==> 0.0 <= g[i][j]
  }

  /** The contents of a two-dimensional array, as a grid value. */
  function Cells(a: array2<real>): (g: Grid)
    reads a
    ensures Shaped(g, a.Length0, a.Length1)
    ensures forall i, j :: 0 <= i < a.Length0 && 0 <= j < a.Length1 ==> g[i][j] == a[i, j]
  {
    seq(a.Length0, i requires 0 <= i < a.Length0 reads a =>
      seq(a.Length1, j requires 0 <= j < a.Length1 reads a => a[i, j]))
  }

  /** Two grids of one shape that agree cell by cell are equal. */
  lemma SameCells(a: Grid, b: Grid, h: int, w: int)
    requires Shaped(a, h, w) && Shaped(b, h, w)
    requires forall i, j :: 0 <= i < h && 0 <= j < w ==> a[i][j] == b[i][j]
    ensures a == b
  {
    forall i | 0 <= i < h
      ensures a[i] == b[i]
    {
      assert forall j :: 0 <= j < w ==> a[i][j] == b[i][j];
    }
  }

  /** The value of cell `(i, j)`, and `0.0` outside the grid; it keeps the operations below total. */
  function At(g: Grid, i: int, j: int): real {
    if 0 <= i < |g| && 0 <= j < |g[i]| then g[i][j] else 0.0
  }

  function Width(g: Grid): nat {
    if |g| == 0 then 0 else |g[0]|
  }

  /** `np.ones((h, w)) * v`. */
  function Uniform(h: nat, w: nat, v: real): (g: Grid)
    ensures Shaped(g, h, w)
  {
    seq(h, i => seq(w, j => v))
  }

  /** `c * g`. */
  function Scale(g: Grid, c: real): (r: Grid)
    ensures Shaped(r, |g|, Width(g))
  {
    seq(|g|, i => seq(Width(g), j => c * At(g, i, j)))
  }

  /** `a + b`, elementwise, on the shape of `a`. */
  function Add(a: Grid, b: Grid): (r: Grid)
    ensures Shaped(r, |a|, Width(a))
  {
    seq(|a|, i => seq(Width(a), j => At(a, i, j) + At(b, i, j)))
  }

  /** `np.roll(g, shift, axis=0)` for `shift` one place either way: whole rows move, around the torus. */
  function RollRows(g: Grid, shift: int): (r: Grid)
    requires shift == 1 || shift == -1
    ensures Shaped(r, |g|, Width(g))
  {
    seq(|g|, i requires 0 <= i < |g| =>
      seq(Width(g), j => At(g, if shift == 1 then Prev(i, |g|) else Next(i, |g|), j)))
  }

  /** `np.roll(g, shift, axis=1)` for `shift` one place either way: every row rolls, around the torus. */
  function RollCols(g: Grid, shift: int): (r: Grid)
    requires shift == 1 || shift == -1
    ensures Shaped(r, |g|, Width(g))
  {
    seq(|g|, i => seq(Width(g), j requires 0 <= j < Width(g) =>
      At(g, i, if shift == 1 then Prev(j, Width(g)) else Next(j, Width(g)))))
  }

  /** On a rectangle the two rolls are `Roll` of the rows and of each row. */
  lemma RollRowsIsRoll(g: Grid, shift: int)
    requires IsGrid(g) && (shift == 1 || shift == -1)
    ensures RollRows(g, shift) == Roll(g, shift)
  {
    var r, s := RollRows(g, shift), Roll(g, shift);
    forall i | 0 <= i < |g|
      ensures r[i] == s[i]
    {
      var k := if shift == 1 then Prev(i, |g|) else Next(i, |g|);
      assert |g[k]| == |g[0]| == Width(g);
      assert s[i] == g[k];
      forall j | 0 <= j < |g[0]|
        ensures r[i][j] == g[k][j]
      {
        assert r[i][j] == At(g, k, j);
      }
    }
  }

  lemma RollColsIsRoll(g: Grid, shift: int, i: int)
    requires IsGrid(g) && 0 <= i < |g| && (shift == 1 || shift == -1)
    ensures RollCols(g, shift)[i] == Roll(g[i], shift)
  {
    var w := |g[0]|;
    assert Width(g) == |g[i]| == w;
    var r, s := RollCols(g, shift)[i], Roll(g[i], shift);
    forall j | 0 <= j < w
      ensures r[j] == s[j]
    {
      var k := if shift == 1 then Prev(j, w) else Next(j, w);
      assert r[j] == At(g, i, k);
      assert s[j] == g[i][k];
    }
  }

  lemma ScaleAt(g: Grid, c: real, i: int, j: int)
    requires IsGrid(g) && 0 <= i < |g| && 0 <= j < |g[0]|
    ensures Scale(g, c)[i][j] == c * g[i][j]
  {
    assert |g[i]| == |g[0]|;
  }

  lemma AddAt(a: Grid, b: Grid, i: int, j: int)
    requires IsGrid(a) && Shaped(b, |a|, |a[0]|) && 0 <= i < |a| && 0 <= j < |a[0]|
    ensures Add(a, b)[i][j] == a[i][j] + b[i][j]
  {
    assert |a[i]| == |b[i]| == |a[0]|;
  }

  /**
   * The bracket of the diffusion statement:
   * `roll(g, 1, 0) + roll(g, -1, 0) + roll(g, 1, 1) + roll(g, -1, 1) - 4 * g`,
   * summed left to right, with `- 4 * g` as `+ (-4) * g`.
   */
  function Laplacian(g: Grid): (r: Grid)
    ensures Shaped(r, |g|, Width(g))
  {
    Add(Add(Add(Add(RollRows(g, 1), RollRows(g, -1)), RollCols(g, 1)), RollCols(g, -1)), Scale(g, -4.0))
  }

  /** `g += rate * Laplacian(g)`: every right-hand term is read from `g` as it was before the addition. */
  function Diffused(g: Grid, rate: real): (r: Grid)
    ensures Shaped(r, |g|, Width(g))
  {
    Add(g, Scale(Laplacian(g), rate))
  }

  /** One `TrailMap.update`: decay the whole grid, then diffuse the decayed grid. */
  function Updated(g: Grid, decay: real, rate: real): (r: Grid)
    ensures Shaped(r, |g|, Width(g))
  {
    Diffused(Scale(g, decay), rate)
  }

  /** The grid total, row by row. */
  function RowSums(g: Grid): (s: seq<real>)
    ensures |s| == |g|
  {
    seq(|g|, i requires 0 <= i < |g| => Sum(g[i]))
  }

  function Total(g: Grid): real {
    Sum(RowSums(g))
  }

  /** The total of an elementwise combination of two grids is that combination of their totals. */
  lemma TotalCombination(a: Grid, b: Grid, c: Grid, p: real, q: real)
    requires IsGrid(a) && Shaped(b, |a|, |a[0]|) && Shaped(c, |a|, |a[0]|)
    requires forall i, j :: 0 <= i < |a| && 0 <= j < |a[0]| ==> c[i][j] == p * a[i][j] + q * b[i][j]
    ensures Total(c) == p * Total(a) + q * Total(b)
  {
    forall i | 0 <= i < |c|
      ensures RowSums(c)[i] == p * RowSums(a)[i] + q * RowSums(b)[i]
    {
      SumLinear(a[i], b[i], c[i], p, q);
    }
    SumLinear(RowSums(a), RowSums(b), RowSums(c), p, q);
  }

  lemma TotalAdd(a: Grid, b: Grid)
    requires IsGrid(a) && Shaped(b, |a|, |a[0]|)
    ensures Total(Add(a, b)) == Total(a) + Total(b)
  {
    TotalCombination(a, b, Add(a, b), 1.0, 1.0);
  }

  lemma TotalScale(g: Grid, c: real)
    requires IsGrid(g)
    ensures Total(Scale(g, c)) == c * Total(g)
  {
    TotalCombination(g, g, Scale(g, c), c, 0.0);
  }

  /** Rolling rows by one place around the torus keeps the total. */
  lemma TotalRollRows(g: Grid, shift: int)
    requires IsGrid(g)
    requires shift == 1 || shift == -1
    ensures Total(RollRows(g, shift)) == Total(g)
  {
    var n := |g|;
    RollRowsIsRoll(g, shift);
    assert RowSums(Roll(g, shift)) == Roll(RowSums(g), shift) by {
      forall i | 0 <= i < n
        ensures RowSums(Roll(g, shift))[i] == Roll(RowSums(g), shift)[i]
      {
        assert Roll(g, shift)[i] == g[if shift == 1 then Prev(i, n) else Next(i, n)];
      }
    }
    SumRoll(RowSums(g), shift);
  }

  /** Rolling columns by one place around the torus keeps every row sum, so the total. */
  lemma TotalRollCols(g: Grid, shift: int)
    requires IsGrid(g)
    requires shift == 1 || shift == -1
    ensures Total(RollCols(g, shift)) == Total(g)
  {
    assert RowSums(RollCols(g, shift)) == RowSums(g) by {
      forall i | 0 <= i < |g|
        ensures RowSums(RollCols(g, shift))[i] == RowSums(g)[i]
      {
        RollColsIsRoll(g, shift, i);
        SumRoll(g[i], shift);
      }
    }
  }

  /** On the torus the stencil only moves mass around: its total is zero. */
  lemma TotalLaplacian(g: Grid)
    requires IsGrid(g)
    ensures Total(Laplacian(g)) == 0.0
  {
    var a := Add(RollRows(g, 1), RollRows(g, -1));
    var b := Add(a, RollCols(g, 1));
    var c := Add(b, RollCols(g, -1));
    TotalRollRows(g, 1);
    TotalRollRows(g, -1);
    TotalRollCols(g, 1);
    TotalRollCols(g, -1);
    TotalAdd(RollRows(g, 1), RollRows(g, -1));
    TotalAdd(a, RollCols(g, 1));
    TotalAdd(b, RollCols(g, -1));
    TotalScale(g, -4.0);
    TotalAdd(c, Scale(g, -4.0));
  }

  /** One update multiplies the grid total by exactly `decay`, whatever the diffusion rate. */
  lemma TotalUpdated(g: Grid, decay: real, rate: real)
    requires IsGrid(g)
    ensures Total(Updated(g, decay, rate)) == decay * Total(g)
  {
    var d := Scale(g, decay);
    TotalScale(g, decay);
    TotalLaplacian(d);
    TotalScale(Laplacian(d), rate);
    TotalAdd(d, Scale(Laplacian(d), rate));
  }

  /** The stencil at one cell: the four neighbours are found modulo the height and the width. */
  lemma LaplacianAt(g: Grid, i: int, j: int)
    requires IsGrid(g) && 0 <= i < |g| && 0 <= j < |g[0]|
    ensures Laplacian(g)[i][j]
         == g[Prev(i, |g|)][j] + g[Next(i, |g|)][j]
          + g[i][Prev(j, |g[0]|)] + g[i][Next(j, |g[0]|)] - 4.0 * g[i][j]
  {
    var h, w := |g|, |g[0]|;
    var up, down := RollRows(g, 1), RollRows(g, -1);
    var left, right := RollCols(g, 1), RollCols(g, -1);
    RollRowsIsRoll(g, 1);
    RollRowsIsRoll(g, -1);
    RollColsIsRoll(g, 1, i);
    RollColsIsRoll(g, -1, i);
    assert up[i][j] == g[Prev(i, h)][j];
    assert down[i][j] == g[Next(i, h)][j];
    assert left[i][j] == g[i][Prev(j, w)];
    assert right[i][j] == g[i][Next(j, w)];
    var a := Add(up, down);
    var b := Add(a, left);
    var c := Add(b, right);
    AddAt(up, down, i, j);
    AddAt(a, left, i, j);
    AddAt(b, right, i, j);
    ScaleAt(g, -4.0, i, j);
    AddAt(c, Scale(g, -4.0), i, j);
  }

  /** At the corner the neighbours are the far row and the far column: indices wrap, they never clamp. */
  lemma LaplacianWrapsAtCorner(g: Grid)
    requires IsGrid(g)
    ensures Laplacian(g)[0][0]
         == g[|g| - 1][0] + g[1 % |g|][0] + g[0][|g[0]| - 1] + g[0][1 % |g[0]|] - 4.0 * g[0][0]
  {
    LaplacianAt(g, 0, 0);
    NextIsMod(0, |g|);
    NextIsMod(0, |g[0]|);
    assert Prev(0, |g|) == |g| - 1 && Next(0, |g|) == 1 % |g|;
    assert Prev(0, |g[0]|) == |g[0]| - 1 && Next(0, |g[0]|) == 1 % |g[0]|;
  }

  /** One diffused cell: the cell plus `rate` times its stencil, whose four neighbours wrap around the torus. */
  lemma DiffusedAt(d: Grid, rate: real, i: int, j: int)
    requires IsGrid(d) && 0 <= i < |d| && 0 <= j < |d[0]|
    ensures Diffused(d, rate)[i][j]
         == d[i][j] + rate * (d[Prev(i, |d|)][j] + d[Next(i, |d|)][j]
                            + d[i][Prev(j, |d[0]|)] + d[i][Next(j, |d[0]|)] - 4.0 * d[i][j])
  {
    var l := Laplacian(d);
    var x := l[i][j];
    LaplacianAt(d, i, j);
    ScaleAt(l, rate, i, j);
    AddAt(d, Scale(l, rate), i, j);
  }

  /**
   * One updated cell is the decayed cell plus `rate` times the stencil of the
   * decayed grid: decay is fully applied before diffusion reads any
   * neighbour, and the neighbours wrap around the torus.
   */
  lemma UpdatedAt(g: Grid, decay: real, rate: real, i: int, j: int)
    requires IsGrid(g) && 0 <= i < |g| && 0 <= j < |g[0]|
    ensures var d := Scale(g, decay);
      Updated(g, decay, rate)[i][j]
        == d[i][j] + rate * (d[Prev(i, |g|)][j] + d[Next(i, |g|)][j]
                           + d[i][Prev(j, |g[0]|)] + d[i][Next(j, |g[0]|)] - 4.0 * d[i][j])
  {
    var d := Scale(g, decay);
    assert |d| == |g| && |d[0]| == |g[0]|;
    DiffusedAt(d, rate, i, j);
  }

  lemma MulNonNegative(a: real, b: real)
    requires 0.0 <= a && 0.0 <= b
    ensures 0.0 <= a * b
  {
  }

  /** The stencil rewritten as a weighted sum: `c + r(n - 4c) == (1 - 4r) c + r n`. */
  lemma CellFormula(c: real, n: real, rate: real)
    ensures c + rate * (n - 4.0 * c) == (1.0 - 4.0 * rate) * c + rate * n
  {
  }

  /** With `decay >= 0` and `0 <= rate <= 1/4` an update maps non-negative grids to non-negative grids. */
  lemma UpdatedNonNegative(g: Grid, decay: real, rate: real)
    requires IsGrid(g) && NonNegative(g)
    requires 0.0 <= decay && 0.0 <= rate <= 0.25
    ensures NonNegative(Updated(g, decay, rate))
  {
    var h, w := |g|, |g[0]|;
    var d := Scale(g, decay);
    assert NonNegative(d) by {
      forall i, j | 0 <= i < h && 0 <= j < w
        ensures 0.0 <= d[i][j]
      {
        ScaleAt(g, decay, i, j);
      }
    }
    forall i, j | 0 <= i < h && 0 <= j < w
      ensures 0.0 <= Updated(g, decay, rate)[i][j]
    {
      UpdatedAt(g, decay, rate, i, j);
      var c := d[i][j];
      var n := d[Prev(i, h)][j] + d[Next(i, h)][j] + d[i][Prev(j, w)] + d[i][Next(j, w)];
      CellFormula(c, n, rate);
      assert 0.0 <= c && 0.0 <= n;
      MulNonNegative(1.0 - 4.0 * rate, c);
      MulNonNegative(rate, n);
    }
  }

  /** On a uniform grid every neighbour equals the cell, so an update is pure decay. */
  lemma UpdatedUniform(h: nat, w: nat, v: real, decay: real, rate: real)
    requires 0 < h && 0 < w
    ensures Updated(Uniform(h, w, v), decay, rate) == Uniform(h, w, v * decay)
  {
    ScaleUniform(h, w, v, decay);
    DiffusedUniform(h, w, v * decay, rate);
  }

  /** Scaling a uniform grid scales its one value. */
  lemma ScaleUniform(h: nat, w: nat, v: real, c: real)
    requires 0 < h && 0 < w
    ensures Scale(Uniform(h, w, v), c) == Uniform(h, w, v * c)
  {
    var g := Uniform(h, w, v);
    var d := Scale(g, c);
    var u := Uniform(h, w, v * c);
    forall i | 0 <= i < h
      ensures d[i] == u[i]
    {
      forall j | 0 <= j < w
        ensures d[i][j] == u[i][j]
      {
        ScaleAt(g, c, i, j);
      }
    }
  }

  /** A uniform grid has a zero Laplacian, so diffusion leaves it as it is. */
  lemma DiffusedUniform(h: nat, w: nat, c: real, rate: real)
    requires 0 < h && 0 < w
    ensures Diffused(Uniform(h, w, c), rate) == Uniform(h, w, c)
  {
    var u := Uniform(h, w, c);
    var r := Diffused(u, rate);
    forall i | 0 <= i < h
      ensures r[i] == u[i]
    {
      forall j | 0 <= j < w
        ensures r[i][j] == c
      {
        DiffusedAt(u, rate, i, j);
        assert r[i][j] == c + rate * (c + c + c + c - 4.0 * c);
      }
    }
  }

  /** With no decay and no diffusion an update changes nothing. */
  lemma UpdatedIdentity(g: Grid)
    requires IsGrid(g)
    ensures Updated(g, 1.0, 0.0) == g
  {
    var r := Updated(g, 1.0, 0.0);
    forall i | 0 <= i < |g|
      ensures r[i] == g[i]
    {
      forall j | 0 <= j < |g[0]|
        ensures r[i][j] == g[i][j]
      {
        UpdatedAt(g, 1.0, 0.0, i, j);
      }
    }
  }

  /** `g[i, j] += a`: cell `(i, j)` grows by `a` and every other cell keeps its value. */
  function Deposited(g: Grid, i: int, j: int, a: real): (r: Grid)
    requires 0 <= i < |g| && 0 <= j < |g[i]|
    ensures |r| == |g| && forall p :: 0 <= p < |g| ==> |r[p]| == |g[p]|
    ensures forall p, q :: 0 <= p < |g| && 0 <= q < |g[p]| ==>
              r[p][q] == if p == i && q == j then g[p][q] + a else g[p][q]
  {
    g[i := g[i][j := g[i][j] + a]]
  }

  /** Two deposits commute, whatever cells they hit. */
  lemma DepositsCommute(g: Grid, i1: int, j1: int, a: real, i2: int, j2: int, b: real)
    requires IsGrid(g)
    requires 0 <= i1 < |g| && 0 <= j1 < |g[0]| && 0 <= i2 < |g| && 0 <= j2 < |g[0]|
    ensures Deposited(Deposited(g, i1, j1, a), i2, j2, b) == Deposited(Deposited(g, i2, j2, b), i1, j1, a)
  {
    var x := Deposited(Deposited(g, i1, j1, a), i2, j2, b);
    var y := Deposited(Deposited(g, i2, j2, b), i1, j1, a);
    forall p | 0 <= p < |g|
      ensures x[p] == y[p]
    {
      assert forall q :: 0 <= q < |g[0]| ==> x[p][q] == y[p][q];
    }
  }

  /** Depositing `a` and then `b` in one cell is depositing `a + b` there. */
  lemma DepositsMerge(g: Grid, i: int, j: int, a: real, b: real)
    requires IsGrid(g) && 0 <= i < |g| && 0 <= j < |g[0]|
    ensures Deposited(Deposited(g, i, j, a), i, j, b) == Deposited(g, i, j, a + b)
  {
    var x := Deposited(Deposited(g, i, j, a), i, j, b);
    var y := Deposited(g, i, j, a + b);
    forall p | 0 <= p < |g|
      ensures x[p] == y[p]
    {
      assert forall q :: 0 <= q < |g[0]| ==> x[p][q] == y[p][q];
    }
  }

  /** A deposit adds exactly its amount to the grid total. */
  lemma TotalDeposited(g: Grid, i: int, j: int, a: real)
    requires 0 <= i < |g| && 0 <= j < |g[i]|
    ensures Total(Deposited(g, i, j, a)) == Total(g) + a
  {
    var r := Deposited(g, i, j, a);
    SumBumped(g[i], j, a);
    assert RowSums(r) == RowSums(g)[i := RowSums(g)[i] + a];
    SumBumped(RowSums(g), i, a);
  }

  lemma DepositedNonNegative(g: Grid, i: int, j: int, a: real)
    requires 0 <= i < |g| && 0 <= j < |g[i]|
    requires NonNegative(g) && 0.0 <= a
    ensures NonNegative(Deposited(g, i, j, a))
  {
  }

  /**
   * `t % n` for a positive `n`, by whole turns of the cycle: the one value in
   * `[0, n)` that differs from `t` by a multiple of `n`.
   */
  function Wrap(t: int, n: int): (k: int)
    requires 0 < n
    ensures 0 <= k < n
    decreases if t < 0 then n - t else t
  {
    if t < 0 then Wrap(t + n, n) else if t >= n then Wrap(t - n, n) else t
  }

  lemma {:induction false} WrapIsMod(t: int, n: int)
    requires 0 < n
    ensures Wrap(t, n) == t % n
    decreases if t < 0 then n - t else t
  {
    if t < 0 {
      WrapIsMod(t + n, n);
      ModOfTurn(t, n);
    } else if t >= n {
      WrapIsMod(t - n, n);
      ModOfTurn(t - n, n);
    }
  }

  /** One more turn of the cycle leaves the remainder alone. */
  lemma ModOfTurn(t: int, n: int)
    requires 0 < n
    ensures (t + n) % n == t % n
  {
    var q, r := t / n, t % n;
    assert t + n == (q + 1) * n + r;
    ModUnique(t + n, n, q + 1, r);
  }

  lemma ModUnique(t: int, n: int, q: int, r: int)
    requires 0 < n && 0 <= r < n && t == q * n + r
    ensures t % n == r
  {
    var q', r' := t / n, t % n;
    assert (q - q') * n == r' - r;
    ZeroFactor(q - q', n, r' - r);
  }

  /** A multiple of `n` strictly between `-n` and `n` is zero. */
  lemma ZeroFactor(d: int, n: int, e: int)
    requires 0 < n && d * n == e && -n < e < n
    ensures d == 0
  {
    if d > 0 {
      MulAtLeast(d, n);
    } else if d < 0 {
      MulAtLeast(-d, n);
    }
  }

  lemma MulAtLeast(d: int, n: int)
    requires 1 <= d && 0 < n
    ensures n <= d * n
  {
    assert d * n == n + (d - 1) * n;
  }

  /** `int(v) % n`: truncate toward zero first, then wrap onto `[0, n)`. */
  function WrapIndex(v: real, n: int): (k: int)
    requires 0 < n
    ensures 0 <= k < n
    ensures 0 <= Trunc(v) < n ==> k == Trunc(v)
  {
    Wrap(Trunc(v), n)
  }

  /** Because truncation comes first, a coordinate just below zero lands in cell 0, not in cell `n - 1`. */
  lemma WrapIndexNearZero(v: real, n: int)
    requires 0 < n && -1.0 < v < 1.0
    ensures WrapIndex(v, n) == 0
  {
  }

  /** `np.clip(v, lo, hi)`. */
  function Clip(v: real, lo: real, hi: real): (r: real)
    requires lo <= hi
    ensures lo <= r <= hi
  {
    if v < lo then lo else if v > hi then hi else v
  }

  /**
   * `int(np.clip(v, 0, n - 1))`: a cell index that is always in range, pulled
   * back to the nearest edge rather than wrapped.
   */
  function ClampIndex(v: real, n: int): (k: int)
    requires 0 < n
    ensures 0 <= k < n
  {
    Trunc(Clip(v, 0.0, (n - 1) as real))
  }

  /** Below the grid the index is 0, above it `n - 1`, and in between the whole part of the coordinate. */
  lemma ClampIndexCases(v: real, n: int)
    requires 0 < n
    ensures v <= 0.0 ==> ClampIndex(v, n) == 0
    ensures (n - 1) as real <= v ==> ClampIndex(v, n) == n - 1
    ensures 0.0 <= v <= (n - 1) as real ==> ClampIndex(v, n) == v.Floor
  {
  }

  /** The value `get_concentration(x, y)` reads: the clamped cell, row `y` and column `x`. */
  function Concentration(g: Grid, x: real, y: real): real
    requires IsGrid(g)
  {
    g[ClampIndex(y, |g|)][ClampIndex(x, |g[0]|)]
  }
}
