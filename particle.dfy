/**
 * A particle of the swarm as a value. It senses the trail at three points
 * ahead of it (forward, left and right of its heading), steers by a fixed
 * priority rule, moves one `speed` along its new heading with the position
 * wrapped onto the torus, and deposits a fixed amount of trail in the cell
 * under it. `Agent` is a particle's state; the class `Particles.Particle`
 * updates that state in place and is specified by the functions here.
 */
module Agents {
  import opened Numeric
  import opened Grids

  /** The default sensor angle, `np.pi / 4`, as the double it evaluates to. */
  const QuarterPi: real := 0.78539816339744827899949086713604629039764404296875

  /** What `deposit` adds to the cell under the particle. */
  const DepositAmount: real := 5.0

  datatype Agent = Agent(
    x: real, y: real, angle: real, speed: real,
    sensorDistance: real, sensorAngle: real, turnAngle: real)

  /** The two grids a particle works with have at least the cells the sensing bounds address. */
  predicate Fits(g: Grid, width: int, height: int) {
    IsGrid(g) && 0 < width <= |g[0]| && 0 < height <= |g|
  }

  /** The whole-cell offset of the sensor in direction `angle + offset`: each component truncated toward zero. */
  function SensorOffset(a: Agent, offset: real, m: Math): (d: (int, int)) {
    (Trunc(m.cos(a.angle + offset) * a.sensorDistance), Trunc(m.sin(a.angle + offset) * a.sensorDistance))
  }

  /**
   * The cell `(row, column)` the sensor reads: the sensor point clamped onto
   * `[0, width - 1] x [0, height - 1]`, then truncated. It is in range
   * whatever the position, heading and sensor distance.
   */
  function SensorCell(a: Agent, width: int, height: int, offset: real, m: Math): (c: (int, int))
    requires 0 < width && 0 < height
    ensures 0 <= c.0 < height && 0 <= c.1 < width
  {
    var d := SensorOffset(a, offset, m);
    (ClampIndex(a.y + d.1 as real, height), ClampIndex(a.x + d.0 as real, width))
  }

  function SensedValue(a: Agent, g: Grid, width: int, height: int, offset: real, m: Math): real
    requires Fits(g, width, height)
  {
    var c := SensorCell(a, width, height, offset, m);
    g[c.0][c.1]
  }

  /** On the trail map's own grid, sensing reads exactly what `get_concentration` reads at the sensor point. */
  lemma SenseIsConcentration(a: Agent, g: Grid, offset: real, m: Math)
    requires IsGrid(g)
    ensures var d := SensorOffset(a, offset, m);
      SensedValue(a, g, |g[0]|, |g|, offset, m) == Concentration(g, a.x + d.0 as real, a.y + d.1 as real)
  {
  }

  /**
   * The steering rule, in priority order: keep the heading when forward is
   * strictly the strongest; otherwise turn towards the stronger side; when
   * the sides are equal, turn by the random sample `jitter`.
   */
  function Steer(angle: real, turn: real, f: real, l: real, r: real, jitter: real): real {
    if f > l && f > r then angle
    else if l > r then angle - turn
    else if r > l then angle + turn
    else angle + jitter
  }

  /** Neither forward strictly strongest nor one side stronger: the case that draws a random turn. */
  predicate Tie(f: real, l: real, r: real) {
    !(f > l && f > r) && l == r
  }

  /** The four cases of the rule, each under the negation of the ones before it. */
  lemma SteerRule(angle: real, turn: real, f: real, l: real, r: real, jitter: real)
    ensures f > l && f > r ==> Steer(angle, turn, f, l, r, jitter) == angle
    ensures !(f > l && f > r) && l > r ==> Steer(angle, turn, f, l, r, jitter) == angle - turn
    ensures !(f > l && f > r) && r > l ==> Steer(angle, turn, f, l, r, jitter) == angle + turn
    ensures Tie(f, l, r) ==> Steer(angle, turn, f, l, r, jitter) == angle + jitter
  {
  }

  /** The random sample matters exactly in the tie: two samples steer differently if and only if they differ there. */
  lemma SteerUsesJitterOnlyOnTie(angle: real, turn: real, f: real, l: real, r: real, j1: real, j2: real)
    ensures Steer(angle, turn, f, l, r, j1) != Steer(angle, turn, f, l, r, j2) <==> Tie(f, l, r) && j1 != j2
  {
  }

  /** Swapping the left and right readings, and the sign of the sample, mirrors the turn. */
  lemma SteerMirror(angle: real, turn: real, f: real, l: real, r: real, jitter: real)
    ensures Steer(angle, turn, f, l, r, jitter) - angle == -(Steer(angle, turn, f, r, l, -jitter) - angle)
  {
  }

  /** `np.random.uniform(-turn, turn)` draws between the two bounds, whichever is lower. */
  predicate InUniformRange(jitter: real, turn: real) {
    if turn >= 0.0 then -turn <= jitter <= turn else turn <= jitter <= -turn
  }

  /** With an admissible sample, one steering changes the heading by at most the turn angle. */
  lemma SteerBounded(angle: real, turn: real, f: real, l: real, r: real, jitter: real)
    requires InUniformRange(jitter, turn)
    ensures var change := Steer(angle, turn, f, l, r, jitter) - angle;
      -Abs(turn) <= change <= Abs(turn)
  {
  }

  function Abs(v: real): (r: real)
    ensures 0.0 <= r && (r == v || r == -v)
  {
    if v < 0.0 then -v else v
  }

  /** The heading after sensing forward, left (`-sensorAngle`) and right (`+sensorAngle`) and steering. */
  function Steered(a: Agent, g: Grid, width: int, height: int, m: Math, jitter: real): real
    requires Fits(g, width, height)
  {
    var f := SensedValue(a, g, width, height, 0.0, m);
    var l := SensedValue(a, g, width, height, -a.sensorAngle, m);
    var r := SensedValue(a, g, width, height, a.sensorAngle, m);
    Steer(a.angle, a.turnAngle, f, l, r, jitter)
  }

  /** `Steered` from the three readings once they are known. */
  lemma SteeredFrom(a: Agent, g: Grid, width: int, height: int, m: Math, jitter: real, f: real, l: real, r: real)
    requires Fits(g, width, height)
    requires f == SensedValue(a, g, width, height, 0.0, m)
    requires l == SensedValue(a, g, width, height, -a.sensorAngle, m)
    requires r == SensedValue(a, g, width, height, a.sensorAngle, m)
    ensures Steered(a, g, width, height, m, jitter) == Steer(a.angle, a.turnAngle, f, l, r, jitter)
  {
  }

  /** The point one `speed` ahead of the agent along heading `angle`, before any wrapping. */
  function Ahead(a: Agent, angle: real, m: Math): (real, real) {
    (a.x + m.cos(angle) * a.speed, a.y + m.sin(angle) * a.speed)
  }

  /**
   * The move of `Particle.update`: take heading `angle`, then go to the point
   * ahead with the position taken modulo the width and the height. The new
   * position lies on the torus and no parameter of the agent changes.
   */
  function Moved(a: Agent, angle: real, width: int, height: int, m: Math): (b: Agent)
    requires 0 < width && 0 < height
    ensures 0.0 <= b.x < width as real && 0.0 <= b.y < height as real
    ensures b.angle == angle && b.speed == a.speed && b.sensorDistance == a.sensorDistance
    ensures b.sensorAngle == a.sensorAngle && b.turnAngle == a.turnAngle
  {
    var p := Ahead(a, angle, m);
    a.(angle := angle, x := RealMod(p.0, width as real), y := RealMod(p.1, height as real))
  }

  /** A move that does not cross an edge is not wrapped: the position moves by exactly one step. */
  lemma MoveInsideIsUnwrapped(a: Agent, angle: real, width: int, height: int, m: Math)
    requires 0 < width && 0 < height
    ensures var p, b := Ahead(a, angle, m), Moved(a, angle, width, height, m);
      (0.0 <= p.0 < width as real ==> b.x == p.0) && (0.0 <= p.1 < height as real ==> b.y == p.1)
  {
    var p := Ahead(a, angle, m);
    if 0.0 <= p.0 < width as real {
      RealModOfInRange(p.0, width as real);
    }
    if 0.0 <= p.1 < height as real {
      RealModOfInRange(p.1, height as real);
    }
  }

  /** `Particle.update` on a value: sense and steer, then move along the new heading. */
  function AgentUpdated(a: Agent, g: Grid, width: int, height: int, m: Math, jitter: real): (b: Agent)
    requires Fits(g, width, height)
    ensures 0.0 <= b.x < width as real && 0.0 <= b.y < height as real
    ensures b.speed == a.speed && b.sensorDistance == a.sensorDistance
    ensures b.sensorAngle == a.sensorAngle && b.turnAngle == a.turnAngle
    ensures b.angle == Steered(a, g, width, height, m, jitter)
  {
    Moved(a, Steered(a, g, width, height, m, jitter), width, height, m)
  }

  /** `Particle.deposit` on a value: 5.0 more in the cell `(int(y) % rows, int(x) % columns)`. */
  function DepositedBy(g: Grid, a: Agent): (r: Grid)
    requires IsGrid(g)
    ensures Shaped(r, |g|, |g[0]|)
  {
    Deposited(g, WrapIndex(a.y, |g|), WrapIndex(a.x, |g[0]|), DepositAmount)
  }

  /** A deposit adds exactly 5.0 to the grid total, touches only the wrapped cell, and keeps cells non-negative. */
  lemma DepositedByEffect(g: Grid, a: Agent)
    requires IsGrid(g)
    ensures var i, j := WrapIndex(a.y, |g|), WrapIndex(a.x, |g[0]|);
      var r := DepositedBy(g, a);
      Total(r) == Total(g) + DepositAmount
      && r[i][j] == g[i][j] + DepositAmount
      && (forall p, q :: 0 <= p < |g| && 0 <= q < |g[0]| && (p != i || q != j) ==> r[p][q] == g[p][q])
      && (NonNegative(g) ==> NonNegative(r))
  {
    var i, j := WrapIndex(a.y, |g|), WrapIndex(a.x, |g[0]|);
    TotalDeposited(g, i, j, DepositAmount);
    if NonNegative(g) {
      DepositedNonNegative(g, i, j, DepositAmount);
    }
  }
}

/** `Particle`: the object the simulator mutates, specified by the functions on `Agents.Agent`. */
module Particles {
  import opened Numeric
  import opened Grids
  import opened Agents

  class Particle {
    var x: real
    var y: real
    var angle: real
    const speed: real
    const sensorDistance: real
    const sensorAngle: real
    const turnAngle: real

    function State(): Agent
      reads this
    {
      Agent(x, y, angle, speed, sensorDistance, sensorAngle, turnAngle)
    }

    constructor (x: real, y: real, angle: real, speed: real,
                 sensorDistance: real := 5.0, sensorAngle: real := QuarterPi, turnAngle: real := 0.3)
      ensures State() == Agent(x, y, angle, speed, sensorDistance, sensorAngle, turnAngle)
    {
      this.x := x;
      this.y := y;
      this.angle := angle;
      this.speed := speed;
      this.sensorDistance := sensorDistance;
      this.sensorAngle := sensorAngle;
      this.turnAngle := turnAngle;
    }

    /** The trail at the sensor in direction `angle + offset`; a read of the grid and of this particle only. */
    function Sense(trail: array2<real>, width: int, height: int, offset: real, m: Math): (v: real)
      requires 0 < width <= trail.Length1 && 0 < height <= trail.Length0
      reads this, trail
      ensures v == SensedValue(State(), Cells(trail), width, height, offset, m)
    {
      var c := SensorCell(State(), width, height, offset, m);
      trail[c.0, c.1]
    }

    /** Sense three ways, steer, and move with wrap-around; the grid is only read. */
    method Update(trail: array2<real>, width: int, height: int, m: Math, jitter: real)
      requires 0 < width <= trail.Length1 && 0 < height <= trail.Length0
      modifies this`x, this`y, this`angle
      ensures State() == AgentUpdated(old(State()), Cells(trail), width, height, m, jitter)
    {
      var a := State();
      ghost var g := Cells(trail);
      var f := Sense(trail, width, height, 0.0, m);
      var l := Sense(trail, width, height, -sensorAngle, m);
      var r := Sense(trail, width, height, sensorAngle, m);
      SteeredFrom(a, g, width, height, m, jitter, f, l, r);
      angle := Steer(angle, turnAngle, f, l, r, jitter);
      var p := Ahead(a, angle, m);
      x := RealMod(p.0, width as real);
      y := RealMod(p.1, height as real);
      assert State() == Moved(a, angle, width, height, m);
    }

    /** `trail[int(y) % rows, int(x) % columns] += 5.0`. */
    method Deposit(trail: array2<real>)
      requires 0 < trail.Length0 && 0 < trail.Length1
      modifies trail
      ensures Cells(trail) == DepositedBy(old(Cells(trail)), State())
    {
      ghost var g := Cells(trail);
      var xi := WrapIndex(x, trail.Length1);
      var yi := WrapIndex(y, trail.Length0);
      trail[yi, xi] := trail[yi, xi] + DepositAmount;
      SameCells(Cells(trail), DepositedBy(g, State()), trail.Length0, trail.Length1);
    }
  }

  /** The states of a list of particles, in list order. */
  function States(ps: seq<Particle>): (s: seq<Agent>)
    reads ps
    ensures |s| == |ps| && forall i :: 0 <= i < |ps| ==> s[i] == ps[i].State()
  {
    if |ps| == 0 then [] else [ps[0].State()] + States(ps[1..])
  }
}
