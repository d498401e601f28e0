/**
 * `MetricTracker`: per-trial logs of the grid's entropy and of the swarm's
 * mean displacement, a baseline of the previous positions that is reset at
 * the start of every trial, and the archive of finished trials with their
 * elementwise mean. `Tracker` is the tracker's state as a value and the
 * functions on it specify the methods of the class `MetricTracker`.
 */
module Metrics {
  import opened Numeric
  import opened Wrappers
  import opened Grids
  import opened Agents
  import opened Particles
  import opened TrailMaps

  datatype Pos = Pos(x: real, y: real)

  /** `np.array([[p.x, p.y] for p in particles])`. */
  function Positions(agents: seq<Agent>): (ps: seq<Pos>)
    ensures |ps| == |agents| && forall i :: 0 <= i < |agents| ==> ps[i] == Pos(agents[i].x, agents[i].y)
  {
    seq(|agents|, i requires 0 <= i < |agents| => Pos(agents[i].x, agents[i].y))
  }

  // ---------------------------------------------------------------------
  // Entropy: the normalisation of the grid into a distribution.

  /** The cells in row-major order, as NumPy iterates a 2-D array. */
  function Flatten(g: Grid): (s: seq<real>) {
    if |g| == 0 then [] else g[0] + Flatten(g[1..])
  }

  lemma {:induction false} SumFlatten(g: Grid)
    ensures Sum(Flatten(g)) == Total(g)
  {
    if |g| > 0 {
      SumFlatten(g[1..]);
      SumConcat(g[0], Flatten(g[1..]));
      assert RowSums(g) == [Sum(g[0])] + RowSums(g[1..]);
    }
  }

  predicate AllNonNegative(s: seq<real>) {
    forall i :: 0 <= i < |s| ==> 0.0 <= s[i]
  }

  lemma {:induction false} FlattenNonNegative(g: Grid)
    requires NonNegative(g)
    ensures AllNonNegative(Flatten(g))
  {
    if |g| > 0 {
      FlattenNonNegative(g[1..]);
      var s := Flatten(g);
      forall i | 0 <= i < |s|
        ensures 0.0 <= s[i]
      {
        if i >= |g[0]| {
          assert s[i] == Flatten(g[1..])[i - |g[0]|];
        }
      }
    }
  }

  /** Every entry divided by `t`. */
  function Divided(s: seq<real>, t: real): (p: seq<real>)
    requires t != 0.0
    ensures |p| == |s| && forall i :: 0 <= i < |s| ==> p[i] == s[i] / t
  {
    seq(|s|, i requires 0 <= i < |s| => s[i] / t)
  }

  /** `trail / np.sum(trail)`. */
  function Normalised(s: seq<real>): (p: seq<real>)
    requires Sum(s) != 0.0
  {
    Divided(s, Sum(s))
  }

  /** `prob[prob > 0]`: the positive entries, in order. */
  function Positive(s: seq<real>): (q: seq<real>)
    ensures forall i :: 0 <= i < |q| ==> 0.0 < q[i]
  {
    if |s| == 0 then [] else (if s[0] > 0.0 then [s[0]] else []) + Positive(s[1..])
  }

  /** Dropping the zero entries of a non-negative sequence keeps its sum. */
  lemma {:induction false} SumPositive(s: seq<real>)
    requires AllNonNegative(s)
    ensures Sum(Positive(s)) == Sum(s)
  {
    if |s| > 0 {
      SumPositive(s[1..]);
      SumConcat(if s[0] > 0.0 then [s[0]] else [], Positive(s[1..]));
    }
  }

  /** No entry of a non-negative sequence exceeds its sum. */
  lemma {:induction false} EntryAtMostSum(s: seq<real>, i: int)
    requires AllNonNegative(s) && 0 <= i < |s|
    ensures s[i] <= Sum(s)
  {
    if i > 0 {
      EntryAtMostSum(s[1..], i - 1);
    }
    SumNonNegative(s[1..]);
  }

  lemma {:induction false} SumNonNegative(s: seq<real>)
    requires AllNonNegative(s)
    ensures 0.0 <= Sum(s)
  {
    if |s| > 0 {
      SumNonNegative(s[1..]);
    }
  }

  lemma AddQuotients(a: real, b: real, t: real)
    requires t != 0.0
    ensures a / t + b / t == (a + b) / t
  {
  }

  lemma DivideBySelf(t: real)
    requires t != 0.0
    ensures t / t == 1.0
  {
  }

  /** Dividing every entry by `t` divides the sum by `t`. */
  lemma {:induction false} SumDivided(s: seq<real>, t: real)
    requires t != 0.0
    ensures Sum(Divided(s, t)) == Sum(s) / t
  {
    if |s| > 0 {
      assert Divided(s, t)[1..] == Divided(s[1..], t);
      SumDivided(s[1..], t);
      AddQuotients(s[0], Sum(s[1..]), t);
    }
  }

  /** Normalising a non-negative sequence with a positive sum gives a distribution: entries in `[0, 1]` summing to 1. */
  lemma NormalisedIsDistribution(s: seq<real>)
    requires AllNonNegative(s) && 0.0 < Sum(s)
    ensures var p := Normalised(s); AllNonNegative(p) && Sum(p) == 1.0
    ensures forall i :: 0 <= i < |s| ==> Normalised(s)[i] <= 1.0
  {
    var t, p := Sum(s), Normalised(s);
    forall i | 0 <= i < |s|
      ensures 0.0 <= p[i]
    {
      QuotientNonNegative(s[i], t);
    }
    SumDivided(s, t);
    DivideBySelf(t);
    forall i | 0 <= i < |s|
      ensures p[i] <= 1.0
    {
      EntryAtMostSum(p, i);
    }
  }

  /**
   * What the logarithm is applied to: for a non-negative grid with a
   * positive total, the kept probabilities are positive, at most 1 and sum
   * to 1.
   */
  lemma EntropyInputIsDistribution(g: Grid)
    requires NonNegative(g) && 0.0 < Total(g)
    ensures Sum(Flatten(g)) != 0.0
    ensures var q := Positive(Normalised(Flatten(g)));
      Sum(q) == 1.0 && forall i :: 0 <= i < |q| ==> 0.0 < q[i] <= 1.0
  {
    var s := Flatten(g);
    SumFlatten(g);
    FlattenNonNegative(g);
    NormalisedIsDistribution(s);
    var p := Normalised(s);
    SumPositive(p);
    var q := Positive(p);
    forall i | 0 <= i < |q|
      ensures q[i] <= 1.0
    {
      EntryAtMostSum(q, i);
    }
  }

  function EntropyTerms(q: seq<real>, m: Math): (e: seq<real>)
    ensures |e| == |q|
  {
    seq(|q|, i requires 0 <= i < |q| => q[i] * m.ln(q[i]))
  }

  /**
   * `compute_entropy`: minus the sum of `p ln p` over the positive
   * probabilities. An all-zero grid, whose probabilities are all `nan` and
   * so all dropped, gives 0.
   */
  function Entropy(g: Grid, m: Math): real {
    var s := Flatten(g);
    if Sum(s) == 0.0 then 0.0 else -Sum(EntropyTerms(Positive(Normalised(s)), m))
  }

  // ---------------------------------------------------------------------
  // Displacement.

  /** `np.linalg.norm` of one row `[dx, dy]`. */
  function Norm(dx: real, dy: real, m: Math): real {
    m.sqrt(dx * dx + dy * dy)
  }

  function Distances(cur: seq<Pos>, prev: seq<Pos>, m: Math): (d: seq<real>)
    requires |cur| == |prev|
    ensures |d| == |cur|
  {
    seq(|cur|, i requires 0 <= i < |cur| => Norm(cur[i].x - prev[i].x, cur[i].y - prev[i].y, m))
  }

  /** The mean distance moved since the baseline; 0 for an empty swarm. */
  function MeanDisplacement(cur: seq<Pos>, prev: seq<Pos>, m: Math): real
    requires |cur| == |prev|
  {
    if |cur| == 0 then 0.0 else Sum(Distances(cur, prev, m)) / |cur| as real
  }

  datatype MetricError = AxisError

  /**
   * The mean as the source computes it: for an empty swarm the positions
   * array is one-dimensional, and `np.linalg.norm(..., axis=1)` raises.
   */
  function MeanDisplacementAsWritten(cur: seq<Pos>, prev: seq<Pos>, m: Math): Result<real, MetricError>
    requires |cur| == |prev|
  {
    if |cur| == 0 then Failure(AxisError) else Success(Sum(Distances(cur, prev, m)) / |cur| as real)
  }

  /** The two agree on every non-empty swarm, and only the empty swarm makes the source raise. */
  lemma AsWrittenFailsOnlyOnEmptySwarm(cur: seq<Pos>, prev: seq<Pos>, m: Math)
    requires |cur| == |prev|
    ensures MeanDisplacementAsWritten(cur, prev, m).Failure? <==> |cur| == 0
    ensures |cur| > 0 ==> MeanDisplacementAsWritten(cur, prev, m) == Success(MeanDisplacement(cur, prev, m))
  {
  }

  /** The second log of a trial without particles raises in the source. */
  lemma EmptySwarmRaises(m: Math)
    ensures MeanDisplacementAsWritten([], [], m) == Failure(AxisError)
    ensures MeanDisplacement([], [], m) == 0.0
  {
  }

  /** If every particle moved by the same `(dx, dy)`, the mean displacement is the length of that vector. */
  lemma UniformShift(cur: seq<Pos>, prev: seq<Pos>, dx: real, dy: real, m: Math)
    requires |cur| == |prev| > 0
    requires forall i :: 0 <= i < |cur| ==> cur[i] == Pos(prev[i].x + dx, prev[i].y + dy)
    ensures MeanDisplacement(cur, prev, m) == Norm(dx, dy, m)
  {
    var d := Distances(cur, prev, m);
    var v := Norm(dx, dy, m);
    forall i | 0 <= i < |d|
      ensures d[i] == v
    {
      assert d[i] == Norm(cur[i].x - prev[i].x, cur[i].y - prev[i].y, m);
      assert cur[i].x - prev[i].x == dx && cur[i].y - prev[i].y == dy;
    }
    assert MeanDisplacement(cur, prev, m) == Sum(d) / |cur| as real;
    SumConstant(d, v);
    var n := |cur| as real;
    assert Sum(d) == n * v;
    QuotientOfMultiple(n, v);
    assert (n * v) / n == v;
  }

  // ---------------------------------------------------------------------
  // The tracker's state as a value.

  datatype Tracker = Tracker(
    entropyTrials: seq<seq<real>>,
    displacementTrials: seq<seq<real>>,
    entropyLog: seq<real>,
    displacementLog: seq<real>,
    prevPositions: Option<seq<Pos>>)

  const Fresh: Tracker := Tracker([], [], [], [], None)

  /** The two logs, and the two archives trial by trial, have equal lengths. */
  predicate Balanced(t: Tracker) {
    |t.entropyLog| == |t.displacementLog|
    && |t.entropyTrials| == |t.displacementTrials|
    && forall k :: 0 <= k < |t.entropyTrials| ==> |t.entropyTrials[k]| == |t.displacementTrials[k]|
  }

  /** The baseline, if any, holds one position per particle of a swarm of `n`. */
  predicate Tracks(t: Tracker, n: nat) {
    t.prevPositions.Some? ==> |t.prevPositions.value| == n
  }

  /** `start_new_trial`: empty logs, no baseline, archives untouched. */
  function Started(t: Tracker): (r: Tracker)
    ensures r.entropyLog == [] && r.displacementLog == [] && r.prevPositions == None
    ensures r.entropyTrials == t.entropyTrials && r.displacementTrials == t.displacementTrials
  {
    t.(entropyLog := [], displacementLog := [], prevPositions := None)
  }

  /**
   * `compute_avg_displacement`: 0 when there is no baseline, else the mean
   * distance from it; either way the baseline becomes the current positions.
   */
  function Displaced(t: Tracker, cur: seq<Pos>, m: Math): (r: (Tracker, real))
    requires Tracks(t, |cur|)
    ensures r.0 == t.(prevPositions := Some(cur))
    ensures t.prevPositions.None? ==> r.1 == 0.0
  {
    match t.prevPositions
    case None => (t.(prevPositions := Some(cur)), 0.0)
    case Some(prev) => (t.(prevPositions := Some(cur)), MeanDisplacement(cur, prev, m))
  }

  /** `log_metrics`: one entropy and one displacement more. */
  function Logged(t: Tracker, cur: seq<Pos>, g: Grid, m: Math): (r: Tracker)
    requires Tracks(t, |cur|)
    ensures r.entropyLog == t.entropyLog + [Entropy(g, m)]
    ensures r.displacementLog == t.displacementLog + [Displaced(t, cur, m).1]
    ensures r.prevPositions == Some(cur) && Tracks(r, |cur|)
    ensures r.entropyTrials == t.entropyTrials && r.displacementTrials == t.displacementTrials
  {
    var e := Entropy(g, m);
    var (u, d) := Displaced(t, cur, m);
    u.(entropyLog := u.entropyLog + [e], displacementLog := u.displacementLog + [d])
  }

  /** `finalize_trial`: archive a copy of each log; the logs themselves stay. */
  function Finalized(t: Tracker): (r: Tracker)
    ensures r.entropyTrials == t.entropyTrials + [t.entropyLog]
    ensures r.displacementTrials == t.displacementTrials + [t.displacementLog]
    ensures r.entropyLog == t.entropyLog && r.displacementLog == t.displacementLog
    ensures r.prevPositions == t.prevPositions
  {
    t.(entropyTrials := t.entropyTrials + [t.entropyLog],
       displacementTrials := t.displacementTrials + [t.displacementLog])
  }

  /** Every operation of the tracker keeps the logs and the archives balanced. */
  lemma BalancedPreserved(t: Tracker, cur: seq<Pos>, g: Grid, m: Math)
    requires Balanced(t)
    ensures Balanced(Started(t)) && Balanced(Finalized(t))
    ensures Tracks(t, |cur|) ==> Balanced(Logged(t, cur, g, m))
  {
    var f := Finalized(t);
    forall k | 0 <= k < |f.entropyTrials|
      ensures |f.entropyTrials[k]| == |f.displacementTrials[k]|
    {
      if k < |t.entropyTrials| {
        assert f.entropyTrials[k] == t.entropyTrials[k];
        assert f.displacementTrials[k] == t.displacementTrials[k];
      }
    }
  }

  /** The logs of a trial after one `log_metrics` per observation, the first call first. */
  function LoggedAll(t: Tracker, obs: seq<seq<Pos>>, grids: seq<Grid>, size: nat, m: Math): (r: Tracker)
    requires |obs| == |grids| && Tracks(t, size)
    requires forall k :: 0 <= k < |obs| ==> |obs[k]| == size
    ensures Tracks(r, size)
    decreases |obs|
  {
    if |obs| == 0 then t
    else
      var n := |obs| - 1;
      var before := LoggedAll(t, obs[..n], grids[..n], size, m);
      Logged(before, obs[n], grids[n], m)
  }

  /**
   * A trial started afresh and logged at observations `obs[0], obs[1], ...`
   * holds, at each `k`, the entropy of the `k`-th grid and the mean
   * displacement from observation `k - 1` to observation `k`, and 0 at `k = 0`:
   * the baseline is always the previous call's positions.
   */
  lemma {:induction false} TrialLogs(t: Tracker, obs: seq<seq<Pos>>, grids: seq<Grid>, size: nat, m: Math)
    requires |obs| == |grids|
    requires forall k :: 0 <= k < |obs| ==> |obs[k]| == size
    ensures var r := LoggedAll(Started(t), obs, grids, size, m);
      |r.entropyLog| == |obs| && |r.displacementLog| == |obs|
      && (forall k :: 0 <= k < |obs| ==> r.entropyLog[k] == Entropy(grids[k], m))
      && (|obs| > 0 ==> r.displacementLog[0] == 0.0 && r.prevPositions == Some(obs[|obs| - 1]))
      && (forall k :: 0 < k < |obs| ==> r.displacementLog[k] == MeanDisplacement(obs[k], obs[k - 1], m))
    decreases |obs|
  {
    if |obs| > 0 {
      var n := |obs| - 1;
      var o, gs := obs[..n], grids[..n];
      assert forall k :: 0 <= k < |o| ==> |o[k]| == size;
      TrialLogs(t, o, gs, size, m);
      var before := LoggedAll(Started(t), o, gs, size, m);
      var r := LoggedAll(Started(t), obs, grids, size, m);
      assert r == Logged(before, obs[n], grids[n], m);
      if n > 0 {
        assert before.prevPositions == Some(obs[n - 1]);
      }
      forall k | 0 <= k < n
        ensures r.entropyLog[k] == Entropy(grids[k], m)
        ensures k > 0 ==> r.displacementLog[k] == MeanDisplacement(obs[k], obs[k - 1], m)
      {
        assert r.entropyLog[k] == before.entropyLog[k];
        assert r.displacementLog[k] == before.displacementLog[k];
        assert o[k] == obs[k] && gs[k] == grids[k];
        if k > 0 {
          assert o[k - 1] == obs[k - 1];
        }
      }
    }
  }

  // ---------------------------------------------------------------------
  // The archive's elementwise mean.

  datatype AggregateError = NoTrials | RaggedTrials

  predicate Rectangular(trials: seq<seq<real>>) {
    forall k :: 0 <= k < |trials| ==> |trials[k]| == |trials[0]|
  }

  function Column(trials: seq<seq<real>>, j: int): (c: seq<real>)
    requires |trials| > 0 && Rectangular(trials) && 0 <= j < |trials[0]|
    ensures |c| == |trials| && forall k :: 0 <= k < |trials| ==> c[k] == trials[k][j]
  {
    seq(|trials|, k requires 0 <= k < |trials| => trials[k][j])
  }

  /**
   * `np.mean(np.array(trials), axis=0)`: entry `j` is the mean of entry `j`
   * over all trials. No trials gives NumPy's `nan`, trials of unequal
   * lengths do not form an array; both are errors here.
   */
  function MeanAcross(trials: seq<seq<real>>): (r: Result<seq<real>, AggregateError>)
    ensures |trials| == 0 <==> r == Failure(NoTrials)
    ensures |trials| > 0 && !Rectangular(trials) <==> r == Failure(RaggedTrials)
    ensures r.Success? ==> |r.value| == |trials[0]|
  {
    if |trials| == 0 then Failure(NoTrials)
    else if !Rectangular(trials) then Failure(RaggedTrials)
    else Success(seq(|trials[0]|, j requires 0 <= j < |trials[0]| => Sum(Column(trials, j)) / |trials| as real))
  }

  /** When every trial logged the same series, their mean is that series. */
  lemma MeanOfIdenticalTrials(trials: seq<seq<real>>, s: seq<real>)
    requires |trials| > 0 && forall k :: 0 <= k < |trials| ==> trials[k] == s
    ensures MeanAcross(trials) == Success(s)
  {
    var r := MeanAcross(trials);
    assert Rectangular(trials) && trials[0] == s;
    forall j | 0 <= j < |s|
      ensures r.value[j] == s[j]
    {
      SumConstant(Column(trials, j), s[j]);
      QuotientOfMultiple(|trials| as real, s[j]);
    }
    assert r.value == s;
  }

  datatype Stats = Stats(entropyMean: seq<real>, displacementMean: seq<real>)

  /** The mean half of `get_aggregate_stats`, for both metrics. */
  function AggregateStats(t: Tracker): (r: Result<Stats, AggregateError>)
    ensures r.Success? <==> MeanAcross(t.entropyTrials).Success? && MeanAcross(t.displacementTrials).Success?
    ensures r.Success? ==> r.value == Stats(MeanAcross(t.entropyTrials).value, MeanAcross(t.displacementTrials).value)
    ensures r.Failure? ==> r.error == if MeanAcross(t.entropyTrials).Failure? then MeanAcross(t.entropyTrials).error
                                     else MeanAcross(t.displacementTrials).error
  {
    match (MeanAcross(t.entropyTrials), MeanAcross(t.displacementTrials))
    case (Success(e), Success(d)) => Success(Stats(e, d))
    case (Failure(err), _) => Failure(err)
    case (_, Failure(err)) => Failure(err)
  }

  // ---------------------------------------------------------------------
  // The object.

  class MetricTracker {
    var entropyTrials: seq<seq<real>>
    var displacementTrials: seq<seq<real>>
    var entropyLog: seq<real>
    var displacementLog: seq<real>
    var prevPositions: Option<seq<Pos>>

    function State(): Tracker
      reads this
    {
      Tracker(entropyTrials, displacementTrials, entropyLog, displacementLog, prevPositions)
    }

    constructor ()
      ensures State() == Fresh
    {
      entropyTrials := [];
      displacementTrials := [];
      entropyLog := [];
      displacementLog := [];
      prevPositions := None;
    }

    method StartNewTrial()
      modifies this
      ensures State() == Started(old(State()))
    {
      entropyLog := [];
      displacementLog := [];
      prevPositions := None;
    }

    /** The mean displacement since the last call of this trial, and the new baseline. */
    method ComputeAvgDisplacement(particles: seq<Particle>, m: Math) returns (d: real)
      requires Tracks(State(), |particles|)
      modifies this
      ensures (State(), d) == Displaced(old(State()), Positions(States(particles)), m)
    {
      var current := Positions(States(particles));
      if prevPositions.None? {
        prevPositions := Some(current);
        return 0.0;
      }
      d := MeanDisplacement(current, prevPositions.value, m);
      prevPositions := Some(current);
    }

    method LogMetrics(particles: seq<Particle>, trailMap: TrailMap, m: Math)
      requires Tracks(State(), |particles|)
      modifies this
      ensures State() == Logged(old(State()), Positions(States(particles)), Cells(trailMap.grid), m)
    {
      var entropy := Entropy(Cells(trailMap.grid), m);
      entropyLog := entropyLog + [entropy];
      var displacement := ComputeAvgDisplacement(particles, m);
      displacementLog := displacementLog + [displacement];
    }

    method FinalizeTrial()
      modifies this
      ensures State() == Finalized(old(State()))
    {
      entropyTrials := entropyTrials + [entropyLog];
      displacementTrials := displacementTrials + [displacementLog];
    }

    function GetAggregateStats(): (r: Result<Stats, AggregateError>)
      reads this
      ensures r.Success? <==> MeanAcross(entropyTrials).Success? && MeanAcross(displacementTrials).Success?
      ensures r.Success? ==> r.value == Stats(MeanAcross(entropyTrials).value, MeanAcross(displacementTrials).value)
      ensures r.Failure? ==> r.error == if MeanAcross(entropyTrials).Failure? then MeanAcross(entropyTrials).error
                                       else MeanAcross(displacementTrials).error
    {
      AggregateStats(State())
    }
  }
}
