/**
 * One simulation step and a run of steps, as values. A step visits the
 * particles in list order and, for each one, updates it on the grid as it
 * stands and then lets it deposit; so a particle senses the deposits of
 * every particle before it in the same step. After all particles the field
 * is decayed and diffused once, and the tracker, if there is one, logs
 * once. A run repeats step-then-render. The class `Simulators.Simulator`
 * performs these in place and is specified by the functions here.
 */
module Worlds {
  import opened Numeric
  import opened Wrappers
  import opened Grids
  import opened Agents
  import opened Metrics

  /** The grid after the particles `bs` deposit in list order, the first first. */
  function Deposits(g: Grid, bs: seq<Agent>): (r: Grid)
    requires IsGrid(g)
    ensures Shaped(r, |g|, |g[0]|)
    decreases |bs|
  {
    if |bs| == 0 then g
    else
      var n := |bs| - 1;
      DepositedBy(Deposits(g, bs[..n]), bs[n])
  }

  /** Depositing adds 5.0 per particle to the grid total and keeps the grid non-negative. */
  lemma {:induction false} DepositsTotal(g: Grid, bs: seq<Agent>)
    requires IsGrid(g)
    ensures Total(Deposits(g, bs)) == Total(g) + DepositAmount * |bs| as real
    ensures NonNegative(g) ==> NonNegative(Deposits(g, bs))
    decreases |bs|
  {
    if |bs| > 0 {
      var n := |bs| - 1;
      DepositsTotal(g, bs[..n]);
      DepositedByEffect(Deposits(g, bs[..n]), bs[n]);
    }
  }

  /** One particle's turn: from its state, the grid it senses and its jitter sample, to its new state. */
  type Turn = (Agent, Grid, real) -> Agent

  /**
   * `Particle.update` as the turn of a simulator with a `width x height`
   * field. A step only hands it grids of that shape; on a grid too small for
   * the bounds it leaves the particle as it is.
   */
  function ParticleTurn(m: Math, width: int, height: int): Turn {
    (a: Agent, g: Grid, jitter: real) =>
      if Fits(g, width, height) then AgentUpdated(a, g, width, height, m, jitter) else a
  }

  /**
   * The particle loop of a step, in the order of the list: `moved[k]` is
   * particle `k` after its turn, and the grid it senses is the start grid
   * carrying the deposits of particles `0 .. k - 1` of this step, which have
   * already moved. Sensing is interleaved with depositing, not done on a
   * snapshot taken at the start of the step.
   */
  predicate Interleaved(agents: seq<Agent>, g: Grid, turn: Turn, jitters: seq<real>, moved: seq<Agent>)
    requires IsGrid(g) && |jitters| == |agents|
  {
    |moved| == |agents|
    && forall k :: 0 <= k < |moved| ==> moved[k] == turn(agents[k], Deposits(g, moved[..k]), jitters[k])
  }

  /** The particles after their turns, computed one particle at a time. */
  function Moves(agents: seq<Agent>, g: Grid, turn: Turn, jitters: seq<real>): (moved: seq<Agent>)
    requires IsGrid(g) && |jitters| == |agents|
    ensures |moved| == |agents|
    decreases |agents|
  {
    if |agents| == 0 then []
    else
      var n := |agents| - 1;
      var before := Moves(agents[..n], g, turn, jitters[..n]);
      before + [turn(agents[n], Deposits(g, before), jitters[n])]
  }

  /** `Moves` performs the interleaving, and it is the only sequence of turns that does. */
  lemma {:induction false} MovesInterleaved(agents: seq<Agent>, g: Grid, turn: Turn, jitters: seq<real>)
    requires IsGrid(g) && |jitters| == |agents|
    ensures Interleaved(agents, g, turn, jitters, Moves(agents, g, turn, jitters))
    decreases |agents|
  {
    if |agents| > 0 {
      var n := |agents| - 1;
      var a, j := agents[..n], jitters[..n];
      MovesInterleaved(a, g, turn, j);
      var before, moved := Moves(a, g, turn, j), Moves(agents, g, turn, jitters);
      forall k | 0 <= k < |moved|
        ensures moved[k] == turn(agents[k], Deposits(g, moved[..k]), jitters[k])
      {
        if k < n {
          assert moved[..k] == before[..k];
          assert a[k] == agents[k] && j[k] == jitters[k];
        } else {
          assert moved[..k] == before;
        }
      }
    }
  }

  lemma {:induction false} InterleavedUnique(agents: seq<Agent>, g: Grid, turn: Turn, jitters: seq<real>, moved: seq<Agent>)
    requires IsGrid(g) && |jitters| == |agents|
    requires Interleaved(agents, g, turn, jitters, moved)
    ensures moved == Moves(agents, g, turn, jitters)
    decreases |agents|
  {
    if |agents| > 0 {
      var n := |agents| - 1;
      var a, j := agents[..n], jitters[..n];
      forall k | 0 <= k < n
        ensures moved[..n][k] == turn(a[k], Deposits(g, moved[..n][..k]), j[k])
      {
        assert moved[..n][..k] == moved[..k];
      }
      InterleavedUnique(a, g, turn, j, moved[..n]);
      assert moved[n] == turn(agents[n], Deposits(g, moved[..n]), jitters[n]);
      SplitLast(moved);
    }
  }

  /** The first `i` of the first `i + 1` are the first `i`, and the last of them is element `i`. */
  lemma PrefixOfPrefix<T>(s: seq<T>, i: int)
    requires 0 <= i < |s|
    ensures s[..i + 1][..i] == s[..i] && s[..i + 1][i] == s[i] && |s[..i + 1]| == i + 1
  {
  }

  /** A non-empty sequence is its prefix followed by its last element. */
  lemma SplitLast<T>(s: seq<T>)
    requires |s| > 0
    ensures s == s[..|s| - 1] + [s[|s| - 1]]
  {
  }

  /** Everything a step works on: the particles, the field with its two rates, the tracker if any, and the rendered frames. */
  datatype World = World(
    agents: seq<Agent>,
    grid: Grid,
    decay: real,
    rate: real,
    metrics: Option<Tracker>,
    frames: seq<Grid>)

  /** A non-empty field, and a tracker baseline, if there is one, of one position per particle. */
  predicate Consistent(w: World) {
    IsGrid(w.grid) && (w.metrics.Some? ==> Tracks(w.metrics.value, |w.agents|))
  }

  /**
   * A step once the particles have taken their turns and become `moved`:
   * their deposits, one field update, and one log, if a tracker is present,
   * of the moved swarm on the updated field.
   */
  function StepWith(w: World, moved: seq<Agent>, m: Math): (r: World)
    requires Consistent(w) && |moved| == |w.agents|
    ensures Consistent(r) && r.agents == moved && Shaped(r.grid, |w.grid|, |w.grid[0]|)
    ensures r.grid == Updated(Deposits(w.grid, moved), w.decay, w.rate)
    ensures r.decay == w.decay && r.rate == w.rate && r.frames == w.frames
    ensures r.metrics.Some? <==> w.metrics.Some?
  {
    var g := Updated(Deposits(w.grid, moved), w.decay, w.rate);
    var t := if w.metrics.Some? then Some(Logged(w.metrics.value, Positions(moved), g, m)) else None;
    World(moved, g, w.decay, w.rate, t, w.frames)
  }

  /** `Simulator.step`: the particle loop, one field update, then one log if a tracker is present. */
  function Stepped(w: World, turn: Turn, m: Math, jitters: seq<real>): (r: World)
    requires Consistent(w) && |jitters| == |w.agents|
    ensures Consistent(r) && |r.agents| == |w.agents| && Shaped(r.grid, |w.grid|, |w.grid[0]|)
    ensures r.decay == w.decay && r.rate == w.rate && r.frames == w.frames
    ensures r.metrics.Some? <==> w.metrics.Some?
  {
    StepWith(w, Moves(w.agents, w.grid, turn, jitters), m)
  }

  /**
   * Over one step the grid total goes from `T` to `decay * (T + 5 n)` for `n`
   * particles, wherever the particles went.
   */
  lemma StepTotal(w: World, moved: seq<Agent>, m: Math)
    requires Consistent(w) && |moved| == |w.agents|
    ensures Total(StepWith(w, moved, m).grid) == w.decay * (Total(w.grid) + DepositAmount * |w.agents| as real)
  {
    var d, decay := Deposits(w.grid, moved), w.decay;
    var before := Total(w.grid) + DepositAmount * |w.agents| as real;
    DepositsTotal(w.grid, moved);
    TotalUpdated(d, decay, w.rate);
    MulEqual(decay, Total(d), before);
  }

  lemma MulEqual(d: real, a: real, b: real)
    requires a == b
    ensures d * a == d * b
  {
  }

  /** With a non-negative decay and a diffusion rate in `[0, 1/4]`, a step keeps every cell non-negative. */
  lemma StepNonNegative(w: World, moved: seq<Agent>, m: Math)
    requires Consistent(w) && |moved| == |w.agents| && NonNegative(w.grid)
    requires 0.0 <= w.decay && 0.0 <= w.rate <= 0.25
    ensures NonNegative(StepWith(w, moved, m).grid)
  {
    var d := Deposits(w.grid, moved);
    DepositsTotal(w.grid, moved);
    UpdatedNonNegative(d, w.decay, w.rate);
  }

  /**
   * A step's one log entry: one entropy, of the grid after the field update,
   * and one displacement, of the moved particles; the archived trials are
   * untouched.
   */
  lemma StepLogsOnce(w: World, moved: seq<Agent>, m: Math)
    requires Consistent(w) && |moved| == |w.agents| && w.metrics.Some?
    ensures var t, r := w.metrics.value, StepWith(w, moved, m);
      r.metrics.Some?
      && r.metrics.value.entropyLog == t.entropyLog + [Entropy(r.grid, m)]
      && |r.metrics.value.displacementLog| == |t.displacementLog| + 1
      && r.metrics.value.prevPositions == Some(Positions(moved))
      && r.metrics.value.entropyTrials == t.entropyTrials
      && r.metrics.value.displacementTrials == t.displacementTrials
  {
  }

  /** Without particles a step is exactly one field update and, with a tracker, one log of the empty swarm. */
  lemma StepWithoutParticles(w: World, turn: Turn, m: Math)
    requires Consistent(w) && |w.agents| == 0
    ensures var r := Stepped(w, turn, m, []);
      r.grid == Updated(w.grid, w.decay, w.rate) && r.agents == [] && r.frames == w.frames
      && r.metrics == if w.metrics.Some? then Some(Logged(w.metrics.value, [], r.grid, m)) else None
  {
    assert Moves(w.agents, w.grid, turn, []) == [];
  }

  /** `np.log1p` of every cell: the image of one frame. */
  function LogScaled(g: Grid, m: Math): (r: Grid)
    ensures Shaped(r, |g|, Width(g))
  {
    seq(|g|, i requires 0 <= i < |g| => seq(Width(g), j => m.ln(1.0 + At(g, i, j))))
  }

  /** `Simulator.render_frame`: one more frame, the log-scaled current grid. */
  function Rendered(w: World, m: Math): (r: World)
    ensures r.frames == w.frames + [LogScaled(w.grid, m)]
    ensures r.agents == w.agents && r.grid == w.grid && r.metrics == w.metrics
    ensures r.decay == w.decay && r.rate == w.rate
  {
    w.(frames := w.frames + [LogScaled(w.grid, m)])
  }

  /** The jitter samples of a run: one list per step, one sample per particle. */
  predicate Samples(jitterss: seq<seq<real>>, n: nat) {
    forall k :: 0 <= k < |jitterss| ==> |jitterss[k]| == n
  }

  /** `Simulator.run`: one step and one render per entry of `jitterss`, the first first. */
  function Ran(w: World, turn: Turn, m: Math, jitterss: seq<seq<real>>): (r: World)
    requires Consistent(w) && Samples(jitterss, |w.agents|)
    ensures Consistent(r) && |r.agents| == |w.agents| && Shaped(r.grid, |w.grid|, |w.grid[0]|)
    ensures r.decay == w.decay && r.rate == w.rate
    ensures r.metrics.Some? <==> w.metrics.Some?
    decreases |jitterss|, 2
  {
    if |jitterss| == 0 then w else LastRound(w, turn, m, jitterss)
  }

  /** The last round of a run of `|jitterss|` rounds: its step, then one render. */
  function LastRound(w: World, turn: Turn, m: Math, jitterss: seq<seq<real>>): (r: World)
    requires Consistent(w) && Samples(jitterss, |w.agents|) && |jitterss| > 0
    ensures Consistent(r) && |r.agents| == |w.agents| && Shaped(r.grid, |w.grid|, |w.grid[0]|)
    ensures r.decay == w.decay && r.rate == w.rate
    ensures r.metrics.Some? <==> w.metrics.Some?
    decreases |jitterss|, 1
  {
    Rendered(LastStep(w, turn, m, jitterss), m)
  }

  /** The step of the last round, taken after all the rounds before it. */
  function LastStep(w: World, turn: Turn, m: Math, jitterss: seq<seq<real>>): (r: World)
    requires Consistent(w) && Samples(jitterss, |w.agents|) && |jitterss| > 0
    ensures Consistent(r) && |r.agents| == |w.agents| && Shaped(r.grid, |w.grid|, |w.grid[0]|)
    ensures r.decay == w.decay && r.rate == w.rate
    ensures r.metrics.Some? <==> w.metrics.Some?
    decreases |jitterss|, 0
  {
    var n := |jitterss| - 1;
    Stepped(Ran(w, turn, m, jitterss[..n]), turn, m, jitterss[n])
  }

  /** The last round of a run is its last step followed by one render. */
  lemma RanLast(w: World, turn: Turn, m: Math, jitterss: seq<seq<real>>)
    requires Consistent(w) && Samples(jitterss, |w.agents|) && |jitterss| > 0
    ensures var n := |jitterss| - 1;
      Samples(jitterss[..n], |w.agents|)
      && Ran(w, turn, m, jitterss) == Rendered(Stepped(Ran(w, turn, m, jitterss[..n]), turn, m, jitterss[n]), m)
  {
    assert Samples(jitterss[..|jitterss| - 1], |w.agents|);
    assert Ran(w, turn, m, jitterss) == LastRound(w, turn, m, jitterss) == Rendered(LastStep(w, turn, m, jitterss), m);
  }

  /** The frame the last round renders is the field after its step. */
  lemma RanLastFrame(w: World, turn: Turn, m: Math, jitterss: seq<seq<real>>)
    requires Consistent(w) && Samples(jitterss, |w.agents|) && |jitterss| > 0
    ensures var n := |jitterss| - 1;
      Samples(jitterss[..n], |w.agents|)
      && var r := Ran(w, turn, m, jitterss);
      r.frames == Ran(w, turn, m, jitterss[..n]).frames + [LogScaled(r.grid, m)]
  {
    RanLast(w, turn, m, jitterss);
  }

  /** A run of `n` steps keeps the frames it started with and adds exactly `n`. */
  lemma {:induction false} RunFrameCount(w: World, turn: Turn, m: Math, jitterss: seq<seq<real>>)
    requires Consistent(w) && Samples(jitterss, |w.agents|)
    ensures var r := Ran(w, turn, m, jitterss);
      |r.frames| == |w.frames| + |jitterss| && r.frames[..|w.frames|] == w.frames
    decreases |jitterss|
  {
    if |jitterss| > 0 {
      var n := |jitterss| - 1;
      RanLastFrame(w, turn, m, jitterss);
      RunFrameCount(w, turn, m, jitterss[..n]);
    }
  }

  /** Frame `k` of a run is the log-scaled field after step `k`, counting from 0. */
  lemma {:induction false} RunFrameAt(w: World, turn: Turn, m: Math, jitterss: seq<seq<real>>, k: nat)
    requires Consistent(w) && Samples(jitterss, |w.agents|) && k < |jitterss|
    ensures Samples(jitterss[..k + 1], |w.agents|)
    ensures |Ran(w, turn, m, jitterss).frames| == |w.frames| + |jitterss|
    ensures Ran(w, turn, m, jitterss).frames[|w.frames| + k] == LogScaled(Ran(w, turn, m, jitterss[..k + 1]).grid, m)
    decreases |jitterss|
  {
    var n := |jitterss| - 1;
    RanLastFrame(w, turn, m, jitterss);
    RunFrameCount(w, turn, m, jitterss);
    RunFrameCount(w, turn, m, jitterss[..n]);
    if k < n {
      RunFrameAt(w, turn, m, jitterss[..n], k);
      assert jitterss[..n][..k + 1] == jitterss[..k + 1];
    } else {
      assert jitterss[..k + 1] == jitterss;
    }
  }

  /** With a tracker, a run of `n` steps adds exactly `n` entries to each log. */
  lemma {:induction false} RunLogCount(w: World, turn: Turn, m: Math, jitterss: seq<seq<real>>)
    requires Consistent(w) && Samples(jitterss, |w.agents|) && w.metrics.Some?
    ensures var r := Ran(w, turn, m, jitterss);
      r.metrics.Some?
      && |r.metrics.value.entropyLog| == |w.metrics.value.entropyLog| + |jitterss|
      && |r.metrics.value.displacementLog| == |w.metrics.value.displacementLog| + |jitterss|
    decreases |jitterss|
  {
    if |jitterss| > 0 {
      var n := |jitterss| - 1;
      RanLast(w, turn, m, jitterss);
      RunLogCount(w, turn, m, jitterss[..n]);
      var before := Ran(w, turn, m, jitterss[..n]);
      StepLogsOnce(before, Moves(before.agents, before.grid, turn, jitterss[n]), m);
    }
  }

  /** `v` decayed `n` times by the factor `decay`: `v * decay^n`. */
  function Decayed(v: real, decay: real, n: nat): real {
    if n == 0 then v else Decayed(v, decay, n - 1) * decay
  }

  /** Without particles, a uniform field of value `v` is after `n` steps the uniform field of value `v * decay^n`. */
  lemma {:induction false} RunWithoutParticlesFromUniform(w: World, turn: Turn, m: Math, jitterss: seq<seq<real>>, h: nat, wd: nat, v: real)
    requires 0 < h && 0 < wd && w.grid == Uniform(h, wd, v)
    requires Consistent(w) && |w.agents| == 0 && Samples(jitterss, 0)
    ensures Ran(w, turn, m, jitterss).grid == Uniform(h, wd, Decayed(v, w.decay, |jitterss|))
    decreases |jitterss|
  {
    if |jitterss| > 0 {
      var n := |jitterss| - 1;
      assert Samples(jitterss[..n], 0);
      RunWithoutParticlesFromUniform(w, turn, m, jitterss[..n], h, wd, v);
      RoundUniform(w, turn, m, jitterss, h, wd, v);
    }
  }

  /** The last round of a run without particles scales a uniform field by the decay. */
  lemma RoundUniform(w: World, turn: Turn, m: Math, jitterss: seq<seq<real>>, h: nat, wd: nat, v: real)
    requires 0 < h && 0 < wd && Consistent(w) && |w.agents| == 0 && Samples(jitterss, 0) && |jitterss| > 0
    requires Samples(jitterss[..|jitterss| - 1], 0)
    requires Ran(w, turn, m, jitterss[..|jitterss| - 1]).grid == Uniform(h, wd, Decayed(v, w.decay, |jitterss| - 1))
    ensures Ran(w, turn, m, jitterss).grid == Uniform(h, wd, Decayed(v, w.decay, |jitterss|))
  {
    var n := |jitterss| - 1;
    var before := Ran(w, turn, m, jitterss[..n]);
    LastStepWithoutParticles(w, turn, m, jitterss);
    StepUniform(before, turn, m, h, wd, v, n);
    RanLastGrid(w, turn, m, jitterss);
  }

  /** The field after a run is the field after the step of its last round. */
  lemma RanLastGrid(w: World, turn: Turn, m: Math, jitterss: seq<seq<real>>)
    requires Consistent(w) && Samples(jitterss, |w.agents|) && |jitterss| > 0
    ensures Ran(w, turn, m, jitterss).grid == LastStep(w, turn, m, jitterss).grid
  {
    assert Ran(w, turn, m, jitterss) == LastRound(w, turn, m, jitterss);
  }

  lemma LastStepWithoutParticles(w: World, turn: Turn, m: Math, jitterss: seq<seq<real>>)
    requires Consistent(w) && Samples(jitterss, 0) && |w.agents| == 0 && |jitterss| > 0
    ensures var n := |jitterss| - 1;
      Samples(jitterss[..n], 0)
      && LastStep(w, turn, m, jitterss) == Stepped(Ran(w, turn, m, jitterss[..n]), turn, m, [])
  {
    var n := |jitterss| - 1;
    assert Samples(jitterss[..n], 0);
    assert jitterss[n] == [];
  }

  /** One step without particles scales a uniform field by the decay. */
  lemma StepUniform(w: World, turn: Turn, m: Math, h: nat, wd: nat, v: real, n: nat)
    requires 0 < h && 0 < wd && w.grid == Uniform(h, wd, Decayed(v, w.decay, n))
    requires Consistent(w) && |w.agents| == 0
    ensures Stepped(w, turn, m, []).grid == Uniform(h, wd, Decayed(v, w.decay, n + 1))
  {
    var c, d := Decayed(v, w.decay, n), w.decay;
    assert Decayed(v, d, n + 1) == c * d;
    UpdatedUniform(h, wd, c, d, w.rate);
    StepWithoutParticles(w, turn, m);
  }
}

/** `Simulator`: the object that owns the particles, the trail map, the optional tracker and the frames. */
module Simulators {
  import opened Numeric
  import opened Wrappers
  import opened Grids
  import opened Agents
  import opened Particles
  import opened TrailMaps
  import opened Metrics
  import opened Worlds

  /** The world once the particle loop of a step is over: the particles moved, their deposits made. */
  function AfterMoves(w: World, turn: Turn, jitters: seq<real>): (r: World)
    requires Consistent(w) && |jitters| == |w.agents|
    ensures Consistent(r) && |r.agents| == |w.agents|
  {
    var moved := Moves(w.agents, w.grid, turn, jitters);
    w.(agents := moved, grid := Deposits(w.grid, moved))
  }

  /** The world once the field has decayed and diffused. */
  function AfterUpdate(w: World): (r: World)
    requires Consistent(w)
    ensures Consistent(r) && r.agents == w.agents
  {
    w.(grid := Updated(w.grid, w.decay, w.rate))
  }

  /** The world once the tracker, if there is one, has logged the swarm on the field. */
  function AfterLog(w: World, m: Math): (r: World)
    requires Consistent(w)
    ensures Consistent(r)
  {
    var t := if w.metrics.Some? then Some(Logged(w.metrics.value, Positions(w.agents), w.grid, m)) else None;
    w.(metrics := t)
  }

  /** A step is its three stages in order. */
  lemma SteppedInStages(w: World, turn: Turn, m: Math, jitters: seq<real>)
    requires Consistent(w) && |jitters| == |w.agents|
    ensures Stepped(w, turn, m, jitters) == AfterLog(AfterUpdate(AfterMoves(w, turn, jitters)), m)
  {
  }

  class Simulator {
    const particles: seq<Particle>
    const trailMap: TrailMap
    /** `None` in the source's terms when `null`: then `step` logs nothing. */
    const metricTracker: MetricTracker?
    const width: int
    const height: int
    var frames: seq<Grid>

    /**
     * A non-empty trail map whose dimensions the simulator copied, particles
     * that are distinct objects, and a tracker baseline, if any, of one
     * position per particle.
     */
    ghost predicate Valid()
      reads metricTracker
    {
      trailMap.Valid() && width == trailMap.width && height == trailMap.height
      && 0 < width && 0 < height
      && Distinct(particles)
      && (metricTracker != null ==> Tracks(metricTracker.State(), |particles|))
    }

    /** The simulator's state as a value. */
    ghost function WorldOf(): (w: World)
      reads this, particles, trailMap.grid, metricTracker
      ensures Valid() ==> Consistent(w) && |w.agents| == |particles|
    {
      World(States(particles), Cells(trailMap.grid), trailMap.decay, trailMap.diffusionRate,
            if metricTracker == null then None else Some(metricTracker.State()), frames)
    }

    /** The dimensions are copied from the trail map; there are no frames yet. */
    constructor (particles: seq<Particle>, trailMap: TrailMap, metricTracker: MetricTracker?)
      ensures this.particles == particles && this.trailMap == trailMap && this.metricTracker == metricTracker
      ensures width == trailMap.width && height == trailMap.height && frames == []
      ensures Valid() <==> trailMap.Valid() && 0 < trailMap.width && 0 < trailMap.height && Distinct(particles)
                           && (metricTracker != null ==> Tracks(metricTracker.State(), |particles|))
      ensures WorldOf() == World(States(particles), Cells(trailMap.grid), trailMap.decay, trailMap.diffusionRate,
                                 if metricTracker == null then None else Some(metricTracker.State()), [])
    {
      this.particles := particles;
      this.trailMap := trailMap;
      this.metricTracker := metricTracker;
      frames := [];
      width := trailMap.width;
      height := trailMap.height;
    }

    /** The particle loop of `step`; the tracker is not touched. */
    method MoveParticles(m: Math, jitters: seq<real>, ghost turn: Turn)
      requires Valid() && |jitters| == |particles| && turn == ParticleTurn(m, width, height)
      modifies particles, trailMap.grid
      ensures States(particles) == Moves(old(States(particles)), old(Cells(trailMap.grid)), turn, jitters)
      ensures Cells(trailMap.grid) == Deposits(old(Cells(trailMap.grid)), States(particles))
      ensures Valid() && (metricTracker != null ==> metricTracker.State() == old(metricTracker.State()))
    {
      ghost var objects: seq<object> := particles;
      assert metricTracker != null ==> metricTracker !in objects;
      MoveAll(particles, trailMap.grid, width, height, m, jitters, turn);
    }

    /** The particle loop seen on the whole simulator: the world after it is `AfterMoves` of the world before. */
    method MoveSwarm(m: Math, jitters: seq<real>, ghost turn: Turn)
      requires Valid() && |jitters| == |particles| && turn == ParticleTurn(m, width, height)
      modifies particles, trailMap.grid
      ensures Valid() && WorldOf() == AfterMoves(old(WorldOf()), turn, jitters)
    {
      ghost var w := WorldOf();
      MoveParticles(m, jitters, turn);
      ghost var agents, grid := States(particles), Cells(trailMap.grid);
      ghost var t := if metricTracker == null then None else Some(metricTracker.State());
      assert WorldOf() == World(agents, grid, w.decay, w.rate, t, frames);
      MovedFrom(w, turn, jitters, agents, grid, t, frames);
    }

    /** `trail_map.update()`; the particles and the tracker are not touched. */
    method Diffuse()
      requires Valid()
      modifies trailMap.grid
      ensures Valid() && WorldOf() == AfterUpdate(old(WorldOf()))
    {
      trailMap.Update();
      StatesUnchanged(particles);
    }

    /**
     * `step`: every particle in list order senses, moves and deposits, then
     * the field decays and diffuses, then the tracker, if any, logs.
     */
    method Step(m: Math, jitters: seq<real>)
      requires Valid() && |jitters| == |particles|
      modifies particles, trailMap.grid, metricTracker
      ensures Valid()
      ensures WorldOf() == Stepped(old(WorldOf()), ParticleTurn(m, width, height), m, jitters)
    {
      ghost var w := WorldOf();
      ghost var turn := ParticleTurn(m, width, height);
      MoveSwarm(m, jitters, turn);
      Diffuse();
      LogStep(m);
      SteppedInStages(w, turn, m, jitters);
    }

    /** `if self.metric_tracker: self.metric_tracker.log_metrics(...)`; particles and field are only read. */
    method LogStep(m: Math)
      requires Valid()
      modifies metricTracker
      ensures Valid() && WorldOf() == AfterLog(old(WorldOf()), m)
    {
      if metricTracker != null {
        label before:
        metricTracker.LogMetrics(particles, trailMap, m);
        StatesUnchanged@before(particles);
        CellsUnchanged@before(trailMap.grid);
      }
    }

    /** `frames.append(np.log1p(grid.copy()))`. */
    method RenderFrame(m: Math)
      requires Valid()
      modifies this`frames
      ensures Valid() && frames == old(frames) + [LogScaled(Cells(trailMap.grid), m)]
      ensures WorldOf() == Rendered(old(WorldOf()), m)
    {
      ghost var w := WorldOf();
      label before:
      frames := frames + [LogScaled(Cells(trailMap.grid), m)];
      StatesUnchanged@before(particles);
      assert WorldOf() == w.(frames := frames);
    }

    /** One round of `run`: a step, then a frame of the field it left. */
    method Round(m: Math, jitters: seq<real>)
      requires Valid() && |jitters| == |particles|
      modifies this, particles, trailMap.grid, metricTracker
      ensures Valid()
      ensures WorldOf() == Rendered(Stepped(old(WorldOf()), ParticleTurn(m, width, height), m, jitters), m)
    {
      Step(m, jitters);
      RenderFrame(m);
    }

    /** `n_frames` rounds of step-then-render; none when `n_frames` is not positive, as with `range`. */
    method Run(nFrames: int, m: Math, jitterss: seq<seq<real>>)
      requires Valid() && |jitterss| == (if nFrames < 0 then 0 else nFrames) && Samples(jitterss, |particles|)
      modifies this, particles, trailMap.grid, metricTracker
      ensures Valid()
      ensures WorldOf() == Ran(old(WorldOf()), ParticleTurn(m, width, height), m, jitterss)
    {
      ghost var w := WorldOf();
      ghost var turn := ParticleTurn(m, width, height);
      var rounds := if nFrames < 0 then 0 else nFrames;
      for i := 0 to rounds
        invariant Valid() && Samples(jitterss[..i], |w.agents|)
        invariant WorldOf() == Ran(w, turn, m, jitterss[..i])
      {
        NextRound(w, turn, m, jitterss, i);
      }
      TakeAll(jitterss, jitterss);
    }

    /** Round `i` of `run`, on top of the first `i`, gives the first `i + 1`. */
    method NextRound(ghost w: World, ghost turn: Turn, m: Math, jitterss: seq<seq<real>>, i: int)
      requires Valid() && Consistent(w) && 0 <= i < |jitterss| && Samples(jitterss, |w.agents|)
      requires |w.agents| == |particles| && turn == ParticleTurn(m, width, height)
      requires Samples(jitterss[..i], |w.agents|) && WorldOf() == Ran(w, turn, m, jitterss[..i])
      modifies this, particles, trailMap.grid, metricTracker
      ensures Valid() && WorldOf() == Ran(w, turn, m, jitterss[..i + 1])
    {
      ghost var before := WorldOf();
      Round(m, jitterss[i]);
      OneMoreRound(w, turn, m, jitterss, i, before, WorldOf());
    }
  }

  /** A round of `run` on top of the first `i` rounds gives the first `i + 1`. */
  lemma OneMoreRound(w: World, turn: Turn, m: Math, jitterss: seq<seq<real>>, i: int, before: World, after: World)
    requires Consistent(w) && Samples(jitterss, |w.agents|) && 0 <= i < |jitterss|
    requires Samples(jitterss[..i], |w.agents|) && before == Ran(w, turn, m, jitterss[..i])
    requires after == Rendered(Stepped(before, turn, m, jitterss[i]), m)
    ensures Samples(jitterss[..i + 1], |w.agents|) && after == Ran(w, turn, m, jitterss[..i + 1])
  {
    var js := jitterss[..i + 1];
    PrefixOfPrefix(jitterss, i);
    RanLast(w, turn, m, js);
  }

  /** No particle object occurs twice in the list. */
  predicate Distinct(ps: seq<Particle>) {
    forall i, j :: 0 <= i < j < |ps| ==> ps[i] != ps[j]
  }

  /** The particle loop of `step`, on the particles and the field array it updates in place. */
  method MoveAll(ps: seq<Particle>, trail: array2<real>, width: int, height: int, m: Math, jitters: seq<real>, ghost turn: Turn)
    requires 0 < width == trail.Length1 && 0 < height == trail.Length0 && |jitters| == |ps| && Distinct(ps)
    requires turn == ParticleTurn(m, width, height)
    modifies ps, trail
    ensures States(ps) == Moves(old(States(ps)), old(Cells(trail)), turn, jitters)
    ensures Cells(trail) == Deposits(old(Cells(trail)), States(ps))
  {
    ghost var agents, g0 := States(ps), Cells(trail);
    ghost var done: seq<Agent> := [];
    for i := 0 to |ps|
      invariant |done| == i
      invariant done == Moves(agents[..i], g0, turn, jitters[..i])
      invariant Cells(trail) == Deposits(g0, done)
      invariant States(ps) == done + agents[i..]
    {
      done := MoveOne(ps, i, trail, width, height, m, jitters, turn, agents, g0, done);
    }
    TakeAll(agents, jitters);
  }

  /**
   * The `i`-th pass of the loop, stated as the loop's invariant carried from
   * `i` to `i + 1`: the first `i` particles have moved and deposited in turn.
   */
  method MoveOne(ps: seq<Particle>, i: int, trail: array2<real>, width: int, height: int, m: Math,
                 jitters: seq<real>, ghost turn: Turn, ghost agents: seq<Agent>, ghost g0: Grid,
                 ghost done: seq<Agent>)
      returns (ghost next: seq<Agent>)
    requires 0 < width == trail.Length1 && 0 < height == trail.Length0 && Distinct(ps)
    requires |jitters| == |agents| == |ps| && 0 <= i < |ps| && Shaped(g0, height, width)
    requires turn == ParticleTurn(m, width, height)
    requires |done| == i && done == Moves(agents[..i], g0, turn, jitters[..i])
    requires Cells(trail) == Deposits(g0, done) && States(ps) == done + agents[i..]
    modifies ps[i], trail
    ensures |next| == i + 1 && next == Moves(agents[..i + 1], g0, turn, jitters[..i + 1])
    ensures Cells(trail) == Deposits(g0, next) && States(ps) == next + agents[i + 1..]
  {
    ghost var b := AgentUpdated(agents[i], Cells(trail), width, height, m, jitters[i]);
    TakeTurn(ps, i, trail, width, height, m, jitters[i]);
    TurnTaken(agents, g0, turn, m, width, height, jitters, i, done, b);
    next := done + [b];
  }

  /** Taking a whole sequence's length keeps all of it. */
  lemma TakeAll<T, U>(s: seq<T>, t: seq<U>)
    ensures s[..|s|] == s && t[..|t|] == t
  {
  }

  /** One pass of the loop: `particles[i].update(grid)` then `particles[i].deposit(grid)`; the others stay as they were. */
  method TakeTurn(ps: seq<Particle>, i: int, trail: array2<real>, width: int, height: int, m: Math, jitter: real)
    requires 0 <= i < |ps| && Distinct(ps) && 0 < width == trail.Length1 && 0 < height == trail.Length0
    modifies ps[i], trail
    ensures States(ps) == old(States(ps))[i := AgentUpdated(old(ps[i].State()), old(Cells(trail)), width, height, m, jitter)]
    ensures Cells(trail) == DepositedBy(old(Cells(trail)), ps[i].State())
  {
    UpdateAt(ps, i, trail, width, height, m, jitter);
    ghost var objects: seq<object> := ps;
    assert trail !in objects;
    ghost var moved := States(ps);
    ps[i].Deposit(trail);
    assert States(ps) == moved;
  }

  /** `particles[i].update(grid)` alone: only the `i`-th state changes. */
  method UpdateAt(ps: seq<Particle>, i: int, trail: array2<real>, width: int, height: int, m: Math, jitter: real)
    requires 0 <= i < |ps| && Distinct(ps) && 0 < width == trail.Length1 && 0 < height == trail.Length0
    modifies ps[i]
    ensures States(ps) == old(States(ps))[i := AgentUpdated(old(ps[i].State()), Cells(trail), width, height, m, jitter)]
  {
    ps[i].Update(trail, width, height, m, jitter);
  }

  /** The world after the particle loop, in terms of the new states and field. */
  lemma MovedFrom(w: World, turn: Turn, jitters: seq<real>, agents: seq<Agent>, grid: Grid, t: Option<Tracker>, frames: seq<Grid>)
    requires Consistent(w) && |jitters| == |w.agents|
    requires agents == Moves(w.agents, w.grid, turn, jitters) && grid == Deposits(w.grid, agents)
    requires t == w.metrics && frames == w.frames
    ensures AfterMoves(w, turn, jitters) == World(agents, grid, w.decay, w.rate, t, frames)
  {
  }

  /** Particles whose fields did not change have the same states. */
  twostate lemma StatesUnchanged(ps: seq<Particle>)
    requires forall k :: 0 <= k < |ps| ==> unchanged(ps[k])
    ensures States(ps) == old(States(ps))
  {
  }

  /** An array that did not change holds the same grid. */
  twostate lemma CellsUnchanged(a: array2<real>)
    requires unchanged(a)
    ensures Cells(a) == old(Cells(a))
  {
  }

  /** What one pass of the loop in `MoveAll` does to its ghost state: the invariant holds one particle further. */
  lemma TurnTaken(agents: seq<Agent>, g: Grid, turn: Turn, m: Math, width: int, height: int, jitters: seq<real>,
                  i: int, done: seq<Agent>, b: Agent)
    requires 0 < height == |g| && 0 < width == |g[0]| && Shaped(g, height, width)
    requires turn == ParticleTurn(m, width, height) && |jitters| == |agents| && 0 <= i < |agents|
    requires done == Moves(agents[..i], g, turn, jitters[..i])
    requires b == AgentUpdated(agents[i], Deposits(g, done), width, height, m, jitters[i])
    ensures done + [b] == Moves(agents[..i + 1], g, turn, jitters[..i + 1])
    ensures DepositedBy(Deposits(g, done), b) == Deposits(g, done + [b])
    ensures (done + agents[i..])[i := b] == done + [b] + agents[i + 1..]
  {
    assert b == turn(agents[i], Deposits(g, done), jitters[i]);
    StepInvariant(agents, g, turn, jitters, i, done, b);
    UpdateInto(done, agents, i, b);
  }

  /** Overwriting the first not-yet-moved entry makes it the newest moved one. */
  lemma UpdateInto(done: seq<Agent>, agents: seq<Agent>, i: int, b: Agent)
    requires |done| == i < |agents|
    ensures (done + agents[i..])[i := b] == done + [b] + agents[i + 1..]
  {
  }

  /** One turn of the particle loop in `Step` extends `Moves` and `Deposits` by one particle. */
  lemma StepInvariant(agents: seq<Agent>, g: Grid, turn: Turn, jitters: seq<real>, i: int, done: seq<Agent>, b: Agent)
    requires IsGrid(g) && |jitters| == |agents| && 0 <= i < |agents|
    requires done == Moves(agents[..i], g, turn, jitters[..i])
    requires b == turn(agents[i], Deposits(g, done), jitters[i])
    ensures done + [b] == Moves(agents[..i + 1], g, turn, jitters[..i + 1])
    ensures DepositedBy(Deposits(g, done), b) == Deposits(g, done + [b])
  {
    assert agents[..i + 1][..i] == agents[..i] && jitters[..i + 1][..i] == jitters[..i];
    assert (done + [b])[..i] == done;
  }
}
