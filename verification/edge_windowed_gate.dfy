/** WindowedJointGate.evaluate (edge/joint_gate.py): a search over a stream of readings, against what it looks for. */
module WindowedGate {
  import opened CommonTypes
  import opened Reals
  import opened JointGates

  datatype Config = Config(
    target: Sample,
    tolerance: seq<real>,
    maxSpread: real,
    requiredSamples: int,
    maxSamples: int)
  {
    /** What evaluate accepts; anything else is a ValueError. */
    predicate Valid() {
      |tolerance| == |target| && maxSpread > 0.0 && requiredSamples > 0 && maxSamples >= requiredSamples
    }
  }

  predicate Usable(c: Config, reading: Reading) {
    |reading.values| == |c.target| && reading.finite
  }

  /** The `required` readings up to the i-th (counting from 1) are all usable. */
  predicate FullAt(c: Config, readings: seq<Reading>, i: int) {
    && 0 < c.requiredSamples <= i <= |readings|
    && forall k :: i - c.requiredSamples <= k < i ==> Usable(c, readings[k])
  }

  function WindowAt(c: Config, readings: seq<Reading>, i: int): (w: seq<Sample>)
    requires FullAt(c, readings, i)
    ensures |w| == c.requiredSamples
    ensures forall k :: 0 <= k < |w| ==> w[k] == readings[i - c.requiredSamples + k].values && |w[k]| == |c.target|
  {
    seq(c.requiredSamples, k requires 0 <= k < c.requiredSamples => readings[i - c.requiredSamples + k].values)
  }

  /** Every sample of the window is within tolerance and no joint moves by more than max_spread. */
  predicate Still(c: Config, window: seq<Sample>)
    requires |c.tolerance| == |c.target| && forall k :: 0 <= k < |window| ==> |window[k]| == |c.target|
  {
    && (forall k, j :: 0 <= k < |window| && 0 <= j < |c.target| ==> Abs(window[k][j] - c.target[j]) <= c.tolerance[j])
    && (forall k, l, j :: 0 <= k < |window| && 0 <= l < |window| && 0 <= j < |c.target| ==>
        window[k][j] - window[l][j] <= c.maxSpread)
  }

  /** What the gate looks for at the i-th reading. */
  predicate StableAt(c: Config, readings: seq<Reading>, i: int) {
    c.Valid() && FullAt(c, readings, i) && Still(c, WindowAt(c, readings, i))
  }

  // ----- numpy's reductions over one window -----

  predicate Rectangular(c: Config, window: seq<Sample>) {
    |c.tolerance| == |c.target| && |c.target| > 0 && |window| > 0 && forall k :: 0 <= k < |window| ==>
        |window[k]| == |c.target|
  }

  function JointColumn(c: Config, window: seq<Sample>, j: nat): (r: seq<real>)
    requires Rectangular(c, window) && j < |c.target|
    ensures |r| == |window| && forall k :: 0 <= k < |r| ==> r[k] == window[k][j]
  {
    seq(|window|, k requires 0 <= k < |window| => window[k][j])
  }

  /** `np.max(np.ptp(stacked, axis=0))`. */
  function MaxSpread(c: Config, window: seq<Sample>): (m: real)
    requires Rectangular(c, window)
    ensures m <= c.maxSpread <==>
      forall k, l, j :: 0 <= k < |window| && 0 <= l < |window| && 0 <= j < |c.target| ==>
          window[k][j] - window[l][j] <= c.maxSpread
  {
    var spreads := seq(|c.target|, j requires 0 <= j < |c.target| => Spread(JointColumn(c, window, j)));
    SpreadsBound(c, window, spreads);
    Max(spreads)
  }

  lemma SpreadsBound(c: Config, window: seq<Sample>, spreads: seq<real>)
    requires Rectangular(c, window) && |spreads| == |c.target|
    requires forall j :: 0 <= j < |spreads| ==> spreads[j] == Spread(JointColumn(c, window, j))
    ensures Max(spreads) <= c.maxSpread <==>
      forall k, l, j :: 0 <= k < |window| && 0 <= l < |window| && 0 <= j < |c.target| ==>
          window[k][j] - window[l][j] <= c.maxSpread
  {
    if Max(spreads) <= c.maxSpread {
      forall k, l, j | 0 <= k < |window| && 0 <= l < |window| && 0 <= j < |c.target|
          ensures window[k][j] - window[l][j] <= c.maxSpread {
        var column := JointColumn(c, window, j);
        assert column[k] <= Max(column) && Min(column) <= column[l];
        assert spreads[j] <= Max(spreads);
      }
    } else {
      var j :| 0 <= j < |spreads| && spreads[j] == Max(spreads);
      var column := JointColumn(c, window, j);
      var k :| 0 <= k < |column| && column[k] == Max(column);
      var l :| 0 <= l < |column| && column[l] == Min(column);
      assert window[k][j] - window[l][j] > c.maxSpread;
    }
  }

  /** `np.max(np.abs(stacked - target))`, row by row. */
  function MaxDeviation(c: Config, window: seq<Sample>): real
    requires Rectangular(c, window)
  {
    Max(seq(|window|, k requires 0 <= k < |window| =>
      Max(seq(|c.target|, j requires 0 <= j < |c.target| => Abs(window[k][j] - c.target[j])))))
  }

  /** `np.all(np.abs(stacked - target) <= tolerance)`. */
  predicate WithinTarget(c: Config, window: seq<Sample>)
    requires Rectangular(c, window)
  {
    forall k, j :: 0 <= k < |window| && 0 <= j < |c.target| ==> Abs(window[k][j] - c.target[j]) <= c.tolerance[j]
  }

  /** The figures reported with a verdict at i: those of the last full window up to i. */
  function FiguresAt(c: Config, readings: seq<Reading>, i: int): (Measure, Measure)
    requires c.Valid() && |c.target| > 0 && i <= |readings|
    decreases if i < 0 then 0 else i
  {
    if i <= 0 then (Infinite, Infinite)
    else if FullAt(c, readings, i) then
      var w := WindowAt(c, readings, i);
      (Measured(MaxDeviation(c, w)), Measured(MaxSpread(c, w)))
    else FiguresAt(c, readings, i - 1)
  }

  /** `window` holds the usable readings just before the i-th, as many as required and no more. */
  ghost predicate Recent(c: Config, readings: seq<Reading>, i: int, window: seq<Sample>) {
    && 0 <= |window| <= i <= |readings| && |window| <= c.requiredSamples
    && (forall k :: i - |window| <= k < i ==> Usable(c, readings[k]) && window[k - i + |window|] == readings[k].values)
    && (|window| == c.requiredSamples || |window| == i || !Usable(c, readings[i - |window| - 1]))
  }

  /** `readings` are what sample_joints would return; only a prefix is used. The target has at least one joint. */
  method Evaluate(c: Config, readings: seq<Reading>) returns (r: Outcome<GateResult>)
    requires |c.target| > 0 && |readings| >= c.maxSamples
    ensures r.Raised? <==> !c.Valid()
    // a pass: the least index at which the gate's condition holds
    ensures r.Returned? && r.value.passed ==>
      && r.value.samples <= c.maxSamples && StableAt(c, readings, r.value.samples)
      && (forall i :: i < r.value.samples ==> !StableAt(c, readings, i))
      && r.value.reason == StableTargetWindow
    // a failure: no such index
    ensures r.Returned? && !r.value.passed ==>
      && r.value.samples == c.maxSamples && (forall i :: i <= c.maxSamples ==> !StableAt(c, readings, i))
      && r.value.reason == WindowNotStable
    ensures r.Returned? ==> (r.value.maxError, r.value.maxSpread) == FiguresAt(c, readings, r.value.samples)
  {
    hide FiguresAt, MaxDeviation, MaxSpread, WindowAt, Recent, FullAt, Still, WithinTarget, Last;
    if !c.Valid() {
      return Raised(InvalidFieldValue);
    }
    var window: seq<Sample> := [];
    var observedError, observedSpread := Infinite, Infinite;
    NothingYet(c, readings);
    var index := 0;
    while index < c.maxSamples
      invariant 0 <= index <= c.maxSamples
      invariant Recent(c, readings, index, window)
      invariant forall i :: i <= index ==> !StableAt(c, readings, i)
      invariant (observedError, observedSpread) == FiguresAt(c, readings, index)
    {
      var reading := readings[index];
      index := index + 1;
      if !Usable(c, reading) {
        window := [];
        StartOver(c, readings, index);
        KeepFigures(c, readings, index);
        continue;
      }
      PushRecent(c, readings, index, window);
      window := Last(window + [reading.values], c.requiredSamples);
      if |window| < c.requiredSamples {
        KeepFigures(c, readings, index);
        continue;
      }
      NewFigures(c, readings, index);
      observedError := Measured(MaxDeviation(c, window));
      observedSpread := Measured(MaxSpread(c, window));
      StillMeans(c, window);
      if WithinTarget(c, window) && observedSpread.value <= c.maxSpread {
        return Returned(GateResult(true, index, observedError, observedSpread, StableTargetWindow));
      }
    }
    return Returned(GateResult(false, c.maxSamples, observedError, observedSpread, WindowNotStable));
  }

  lemma NothingYet(c: Config, readings: seq<Reading>)
    requires c.Valid() && |c.target| > 0
    ensures FiguresAt(c, readings, 0) == (Infinite, Infinite)
    ensures Recent(c, readings, 0, []) && forall i :: i <= 0 ==> !StableAt(c, readings, i)
  {
  }

  lemma StartOver(c: Config, readings: seq<Reading>, i: int)
    requires c.Valid() && 0 < i <= |readings| && !Usable(c, readings[i - 1])
    ensures Recent(c, readings, i, []) && !FullAt(c, readings, i)
  {
  }

  lemma KeepFigures(c: Config, readings: seq<Reading>, i: int)
    requires c.Valid() && |c.target| > 0 && 0 < i <= |readings| && !FullAt(c, readings, i)
    ensures FiguresAt(c, readings, i) == FiguresAt(c, readings, i - 1)
  {
  }

  lemma NewFigures(c: Config, readings: seq<Reading>, i: int)
    requires c.Valid() && |c.target| > 0 && FullAt(c, readings, i)
    ensures var w := WindowAt(c, readings, i);
      FiguresAt(c, readings, i) == (Measured(MaxDeviation(c, w)), Measured(MaxSpread(c, w)))
  {
  }

  lemma PushKeepsRecent(c: Config, readings: seq<Reading>, i: int, window: seq<Sample>)
    requires c.Valid() && 0 < i <= |readings| && Recent(c, readings, i - 1, window) && Usable(c, readings[i - 1])
    ensures var next := Last(window + [readings[i - 1].values], c.requiredSamples);
      Recent(c, readings, i, next) && 0 < |next| <= c.requiredSamples
  {
    var grown := window + [readings[i - 1].values];
    var next := Last(grown, c.requiredSamples);
    var cut := |grown| - |next|;
    forall k | i - |next| <= k < i ensures Usable(c, readings[k]) && next[k - i + |next|] == readings[k].values {
      assert next[k - i + |next|] == grown[k - i + |next| + cut];
    }
  }

  lemma RecentIsFull(c: Config, readings: seq<Reading>, i: int, window: seq<Sample>)
    requires Recent(c, readings, i, window) && |window| == c.requiredSamples > 0
    ensures FullAt(c, readings, i) && window == WindowAt(c, readings, i)
  {
  }

  /** The next usable reading: the new window, and whether it is full. */
  lemma PushRecent(c: Config, readings: seq<Reading>, i: int, window: seq<Sample>)
    requires c.Valid() && 0 < i <= |readings| && Recent(c, readings, i - 1, window) && Usable(c, readings[i - 1])
    ensures var next := Last(window + [readings[i - 1].values], c.requiredSamples);
      && Recent(c, readings, i, next) && 0 < |next| <= c.requiredSamples
      && (|next| < c.requiredSamples ==> !FullAt(c, readings, i))
      && (|next| == c.requiredSamples ==> FullAt(c, readings, i) && next == WindowAt(c, readings, i))
  {
    hide Recent, FullAt, WindowAt, Last;
    PushKeepsRecent(c, readings, i, window);
    var next := Last(window + [readings[i - 1].values], c.requiredSamples);
    if |next| < c.requiredSamples {
      NotFull(c, readings, i, next);
    } else {
      RecentIsFull(c, readings, i, next);
    }
  }

  lemma StillMeans(c: Config, window: seq<Sample>)
    requires Rectangular(c, window)
    ensures Still(c, window) <==> WithinTarget(c, window) && MaxSpread(c, window) <= c.maxSpread
  {
  }

  lemma NotFull(c: Config, readings: seq<Reading>, i: int, window: seq<Sample>)
    requires Recent(c, readings, i, window) && |window| < c.requiredSamples
    ensures !FullAt(c, readings, i)
  {
    if |window| < i {
      assert !Usable(c, readings[i - |window| - 1]);
    }
  }
}
