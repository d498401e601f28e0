/**
 * `TrailMap`: the trail intensity field, an `height x width` array that the
 * particles sense and deposit into and that decays and diffuses once per
 * step. The array is updated in place; `Cells` gives its value as a `Grid`,
 * and every method is specified by the matching operation on grids.
 */
module TrailMaps {
  import opened Numeric
  import opened Grids

  /** `a *= c`, cell by cell, in place. */
  method ScaleInPlace(a: array2<real>, c: real)
    modifies a
    ensures Cells(a) == Scale(old(Cells(a)), c)
  {
    ghost var g := Cells(a);
    var h, w := a.Length0, a.Length1;
    for i := 0 to h
      invariant forall p, q :: 0 <= p < i && 0 <= q < w ==> a[p, q] == c * g[p][q]
      invariant forall p, q :: i <= p < h && 0 <= q < w ==> a[p, q] == g[p][q]
    {
      ScaleRow(a, c, i);
    }
    forall p, q | 0 <= p < h && 0 <= q < w
      ensures Cells(a)[p][q] == Scale(g, c)[p][q]
    {
      ScaleAt(g, c, p, q);
    }
    assert h > 0 ==> Width(g) == w;
    SameCells(Cells(a), Scale(g, c), h, w);
  }

  /** Row `i` of `a *= c`; the other rows stay as they were. */
  method ScaleRow(a: array2<real>, c: real, i: int)
    requires 0 <= i < a.Length0
    modifies a
    ensures forall q :: 0 <= q < a.Length1 ==> a[i, q] == c * old(a[i, q])
    ensures forall p, q :: 0 <= p < a.Length0 && p != i && 0 <= q < a.Length1 ==> a[p, q] == old(a[p, q])
  {
    for j := 0 to a.Length1
      invariant forall q :: 0 <= q < j ==> a[i, q] == c * old(a[i, q])
      invariant forall q :: j <= q < a.Length1 ==> a[i, q] == old(a[i, q])
      invariant forall p, q :: 0 <= p < a.Length0 && p != i && 0 <= q < a.Length1 ==> a[p, q] == old(a[p, q])
    {
      a[i, j] := c * a[i, j];
    }
  }

  /** The stencil at `(p, q)` of a grid, written with the torus neighbours. */
  ghost function Stencil(g: Grid, h: int, w: int, p: int, q: int): real
    requires 0 <= p < h == |g| && 0 <= q < w && Shaped(g, h, w)
  {
    g[Prev(p, h)][q] + g[Next(p, h)][q] + g[p][Prev(q, w)] + g[p][Next(q, w)] - 4.0 * g[p][q]
  }

  /** Row `i` of the stencil into `lap`, reading only `a`; the other rows stay as they were. */
  method LaplacianRow(a: array2<real>, lap: array2<real>, i: int)
    requires a != lap && lap.Length0 == a.Length0 && lap.Length1 == a.Length1 && 0 <= i < a.Length0
    modifies lap
    ensures forall q :: 0 <= q < a.Length1 ==> lap[i, q] == Stencil(Cells(a), a.Length0, a.Length1, i, q)
    ensures forall p, q :: 0 <= p < a.Length0 && p != i && 0 <= q < a.Length1 ==> lap[p, q] == old(lap[p, q])
  {
    var h, w := a.Length0, a.Length1;
    for j := 0 to w
      invariant forall q :: 0 <= q < j ==> lap[i, q] == Stencil(Cells(a), h, w, i, q)
      invariant forall p, q :: 0 <= p < h && p != i && 0 <= q < w ==> lap[p, q] == old(lap[p, q])
    {
      lap[i, j] := a[Prev(i, h), j] + a[Next(i, h), j] + a[i, Prev(j, w)] + a[i, Next(j, w)] - 4.0 * a[i, j];
    }
  }

  /**
   * The stencil of the whole array into a fresh array: every cell gets its
   * four torus neighbours minus four times itself, all read from `a`, which
   * is left as it is.
   */
  method LaplacianOf(a: array2<real>) returns (lap: array2<real>)
    ensures fresh(lap) && lap.Length0 == a.Length0 && lap.Length1 == a.Length1
    ensures Cells(lap) == Laplacian(Cells(a))
  {
    ghost var g := Cells(a);
    var h, w := a.Length0, a.Length1;
    lap := new real[h, w];
    for i := 0 to h
      invariant forall p, q :: 0 <= p < i && 0 <= q < w ==> lap[p, q] == Stencil(g, h, w, p, q)
    {
      LaplacianRow(a, lap, i);
    }
    forall p, q | 0 <= p < h && 0 <= q < w
      ensures Cells(lap)[p][q] == Laplacian(g)[p][q]
    {
      LaplacianAt(g, p, q);
    }
    assert h > 0 ==> Width(g) == w;
    SameCells(Cells(lap), Laplacian(g), h, w);
  }

  /** `a += c * b`, cell by cell, in place, for a second array of the same shape. */
  method AddScaledInPlace(a: array2<real>, b: array2<real>, c: real)
    requires a != b && b.Length0 == a.Length0 && b.Length1 == a.Length1
    modifies a
    ensures Cells(a) == Add(old(Cells(a)), Scale(Cells(b), c))
  {
    ghost var g, l := Cells(a), Cells(b);
    var h, w := a.Length0, a.Length1;
    for i := 0 to h
      invariant forall p, q :: 0 <= p < i && 0 <= q < w ==> a[p, q] == g[p][q] + c * l[p][q]
      invariant forall p, q :: i <= p < h && 0 <= q < w ==> a[p, q] == g[p][q]
    {
      AddScaledRow(a, b, c, i);
    }
    forall p, q | 0 <= p < h && 0 <= q < w
      ensures Cells(a)[p][q] == Add(g, Scale(l, c))[p][q]
    {
      ScaleAt(l, c, p, q);
      AddAt(g, Scale(l, c), p, q);
    }
    assert h > 0 ==> Width(g) == w;
    SameCells(Cells(a), Add(g, Scale(l, c)), h, w);
  }

  /** Row `i` of `a += c * b`; the other rows stay as they were. */
  method AddScaledRow(a: array2<real>, b: array2<real>, c: real, i: int)
    requires a != b && b.Length0 == a.Length0 && b.Length1 == a.Length1 && 0 <= i < a.Length0
    modifies a
    ensures forall q :: 0 <= q < a.Length1 ==> a[i, q] == old(a[i, q]) + c * b[i, q]
    ensures forall p, q :: 0 <= p < a.Length0 && p != i && 0 <= q < a.Length1 ==> a[p, q] == old(a[p, q])
  {
    for j := 0 to a.Length1
      invariant forall q :: 0 <= q < j ==> a[i, q] == old(a[i, q]) + c * b[i, q]
      invariant forall q :: j <= q < a.Length1 ==> a[i, q] == old(a[i, q])
      invariant forall p, q :: 0 <= p < a.Length0 && p != i && 0 <= q < a.Length1 ==> a[p, q] == old(a[p, q])
    {
      a[i, j] := a[i, j] + c * b[i, j];
    }
  }

  class TrailMap {
    const width: int
    const height: int
    const decay: real
    const diffusionRate: real
    /** Row `y`, column `x`, as NumPy's `grid[y, x]`. */
    const grid: array2<real>

    ghost predicate Valid() {
      0 <= width && 0 <= height && grid.Length0 == height && grid.Length1 == width
    }

    /** A `height x width` field with every cell at 0.1. */
    constructor (width: int, height: int, decay: real := 0.95, diffusionRate: real := 0.1)
      requires 0 <= width && 0 <= height
      ensures Valid() && fresh(grid)
      ensures this.width == width && this.height == height
      ensures this.decay == decay && this.diffusionRate == diffusionRate
      ensures Cells(grid) == Uniform(height, width, 0.1)
    {
      this.width := width;
      this.height := height;
      this.decay := decay;
      this.diffusionRate := diffusionRate;
      var a := new real[height, width]((i, j) => 0.1);
      grid := a;
      SameCells(Cells(a), Uniform(height, width, 0.1), height, width);
    }

    /**
     * Decay, then diffusion: the stencil is computed into a fresh array from
     * the decayed grid and only then added, so no cell is read after it has
     * been diffused.
     */
    method Update()
      requires Valid()
      modifies grid
      ensures Cells(grid) == Updated(old(Cells(grid)), decay, diffusionRate)
    {
      ScaleInPlace(grid, decay);
      var lap := LaplacianOf(grid);
      AddScaledInPlace(grid, lap, diffusionRate);
    }

    /** `grid[int(y) % height, int(x) % width] += amount`. */
    method Deposit(x: real, y: real, amount: real)
      requires Valid() && 0 < width && 0 < height
      modifies grid
      ensures Cells(grid) == Deposited(old(Cells(grid)), WrapIndex(y, height), WrapIndex(x, width), amount)
    {
      ghost var g := Cells(grid);
      var xi := WrapIndex(x, width);
      var yi := WrapIndex(y, height);
      grid[yi, xi] := grid[yi, xi] + amount;
      SameCells(Cells(grid), Deposited(g, yi, xi, amount), height, width);
    }

    /** The clamped cell under `(x, y)`; reading it changes nothing. */
    function GetConcentration(x: real, y: real): (c: real)
      requires Valid() && 0 < width && 0 < height
      reads grid
      ensures c == Concentration(Cells(grid), x, y)
    {
      grid[ClampIndex(y, height), ClampIndex(x, width)]
    }
  }
}
