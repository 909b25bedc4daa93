/** The arithmetic of the commanded paths (edge/ros2_action.py, reset and publish), over the reals. */
module MotionPaths {
  import opened Reals

  type Pose = seq<real>

  /** a + f·(b − a), joint by joint. */
  function Blend(a: Pose, b: Pose, f: real): (r: Pose)
    requires |a| == |b|
    ensures |r| == |a| && forall j :: 0 <= j < |r| ==> r[j] == a[j] + f * (b[j] - a[j])
  {
    seq(|a|, j requires 0 <= j < |a| => a[j] + f * (b[j] - a[j]))
  }

  // ----- reset: smoothstep -----

  function Smooth(f: real): real {
    f * f * (3.0 - 2.0 * f)
  }

  /** Command k of n, counting from 1. */
  function ResetCommand(start: Pose, target: Pose, n: nat, k: nat): Pose
    requires |start| == |target| && n > 0
  {
    Blend(start, target, Smooth(k as real / n as real))
  }

  function ResetPath(start: Pose, target: Pose, n: nat): (r: seq<Pose>)
    requires |start| == |target| && n > 0
    ensures |r| == n && forall k :: 0 <= k < n ==> r[k] == ResetCommand(start, target, n, k + 1)
  {
    seq(n, k requires 0 <= k < n => ResetCommand(start, target, n, k + 1))
  }

  /** `max(2, int(math.ceil(duration * hz)))`. */
  function TotalSteps(duration: real, hz: real): (n: nat)
    ensures n >= 2 && n as real >= duration * hz
    ensures n == 2 || (n - 1) as real < duration * hz
  {
    var x := duration * hz;
    var up := if x == x.Floor as real then x.Floor else x.Floor + 1;
    if up < 2 then 2 else up
  }

  lemma Product(x: real, y: real)
    requires x >= 0.0 && y >= 0.0
    ensures x * y >= 0.0
  {
  }

  /** The rise of smoothstep between a and b, as a slope times b − a. */
  function Slope(a: real, b: real): real {
    3.0 * (a + b) - 2.0 * (a * a + a * b + b * b)
  }

  lemma SmoothRise(a: real, b: real)
    ensures Smooth(b) - Smooth(a) == (b - a) * Slope(a, b)
  {
    var cubes := b * b * b - a * a * a;
    assert (b - a) * (a * a + a * b + b * b) == cubes;
    assert (b - a) * (a + b) == b * b - a * a;
    assert Smooth(b) == 3.0 * (b * b) - 2.0 * (b * b * b);
    assert Smooth(a) == 3.0 * (a * a) - 2.0 * (a * a * a);
  }

  lemma Square(x: real)
    ensures x * x >= 0.0
  {
    if x >= 0.0 {
      Product(x, x);
    } else {
      Product(-x, -x);
      assert (-x) * (-x) == x * x;
    }
  }

  lemma SlopeBounds(a: real, b: real)
    requires 0.0 <= a <= b <= 1.0
    ensures 0.0 <= Slope(a, b) <= 1.5
  {
    var s, d := a + b - 1.0, b - a;
    assert 1.5 - Slope(a, b) == 1.5 * (s * s) + 0.5 * (d * d);
    Square(s);
    Square(d);
    assert Slope(a, b) == a * (3.0 - 2.0 * a - b) + b * (3.0 - 2.0 * b - a);
    Product(a, 3.0 - 2.0 * a - b);
    Product(b, 3.0 - 2.0 * b - a);
  }

  lemma SmoothEnds()
    ensures Smooth(0.0) == 0.0 && Smooth(1.0) == 1.0
  {
  }

  /** Smoothstep rises, by at most 1.5 times the step. */
  lemma SmoothStepBounds(a: real, b: real)
    requires 0.0 <= a <= b <= 1.0
    ensures Smooth(a) <= Smooth(b) <= Smooth(a) + 1.5 * (b - a)
  {
    SmoothRise(a, b);
    SlopeBounds(a, b);
    var d, m := b - a, Slope(a, b);
    Product(d, m);
    Product(d, 1.5 - m);
    assert d * (1.5 - m) == 1.5 * d - d * m;
  }

  /** Going from p to q of the way from s to t, when q − p is at most `most`. */
  lemma BlendStep(s: real, t: real, p: real, q: real, most: real, a: real, b: real)
    requires 0.0 <= p <= q <= 1.0 && q - p <= most
    requires a == s + p * (t - s) && b == s + q * (t - s)
    ensures s <= t ==> s <= a <= b <= t
    ensures s >= t ==> s >= a >= b >= t
    ensures Abs(b - a) == (q - p) * Abs(t - s) <= most * Abs(t - s)
  {
    var x := Abs(t - s);
    Product(p, x);
    Product(q - p, x);
    Product(1.0 - q, x);
    Product(most - (q - p), x);
    assert p * x + (q - p) * x + (1.0 - q) * x == x;
    assert (most - (q - p)) * x == most * x - (q - p) * x;
    if s <= t {
      assert x == t - s;
      assert p * (t - s) == p * x && q * (t - s) == p * x + (q - p) * x;
    } else {
      assert x == s - t;
      assert p * (t - s) == -(p * x) && q * (t - s) == -(p * x + (q - p) * x);
    }
  }

  lemma Fractions(n: nat, k: nat)
    requires k < n
    ensures 0.0 <= k as real / n as real <= (k + 1) as real / n as real <= 1.0
    ensures (k + 1) as real / n as real - k as real / n as real == 1.0 / n as real
  {
    var x := n as real;
    assert (k + 1) as real == k as real + 1.0;
    assert (k as real + 1.0) / x == k as real / x + 1.0 / x;
    assert (k + 1) as real <= x;
  }

  /** The motion of one joint from a to b on its way from s to t: forward, not past t, by at most `most`. */
  predicate Approaches(s: real, t: real, a: real, b: real, most: real) {
    && (s <= t ==> s <= a <= b <= t)
    && (s >= t ==> s >= a >= b >= t)
    && Abs(b - a) <= most
  }

  lemma JointStep(s: real, t: real, p: real, q: real, n: real, a: real, b: real)
    requires 0.0 <= p <= q <= 1.0 && n > 0.0 && q - p <= 1.5 * (1.0 / n)
    requires a == s + p * (t - s) && b == s + q * (t - s)
    ensures Approaches(s, t, a, b, 1.5 * Abs(t - s) / n)
  {
    BlendStep(s, t, p, q, 1.5 * (1.0 / n), a, b);
    Regroup(Abs(t - s), n);
  }

  lemma SmoothFractions(n: nat, k: nat)
    requires k < n
    ensures var f, g := k as real / n as real, (k + 1) as real / n as real;
      0.0 <= Smooth(f) <= Smooth(g) <= 1.0 && Smooth(g) - Smooth(f) <= 1.5 * (1.0 / n as real)
  {
    hide Smooth;
    var f, g := k as real / n as real, (k + 1) as real / n as real;
    Fractions(n, k);
    SmoothEnds();
    SmoothStepBounds(f, g);
    SmoothStepBounds(0.0, f);
    SmoothStepBounds(g, 1.0);
  }

  /** Command k + 1 of a reset is beyond command k, towards the target and not past it, by at most 1.5/n of the way.
      Command 0 is the start. */
  lemma ResetStep(start: Pose, target: Pose, n: nat, k: nat, j: nat)
    requires |start| == |target| && k < n && j < |start|
    ensures Approaches(start[j], target[j],
                       ResetCommand(start, target, n, k)[j], ResetCommand(start, target, n, k + 1)[j],
                       1.5 * Abs(target[j] - start[j]) / n as real)
  {
    hide Smooth, Abs, Approaches;
    SmoothFractions(n, k);
    var a, b := ResetCommand(start, target, n, k), ResetCommand(start, target, n, k + 1);
    var p, q := Smooth(k as real / n as real), Smooth((k + 1) as real / n as real);
    JointStep(start[j], target[j], p, q, n as real, a[j], b[j]);
  }

  lemma Regroup(x: real, n: real)
    requires n > 0.0
    ensures 1.5 * (1.0 / n) * x == 1.5 * x / n
    ensures (1.0 / n) * x == x / n
  {
    var i := 1.0 / n;
    assert n * i == 1.0;
    assert (i * x) * n == x && (x / n) * n == x;
    Cancel(i * x, x / n, n);
    assert (1.5 * i * x) * n == 1.5 * x && (1.5 * x / n) * n == 1.5 * x;
    Cancel(1.5 * i * x, 1.5 * x / n, n);
  }

  lemma Cancel(a: real, b: real, c: real)
    requires c > 0.0 && a * c == b * c
    ensures a == b
  {
    assert (a - b) * c == 0.0;
  }

  /** A reset ends exactly at its target. */
  lemma ResetEndsAtTarget(start: Pose, target: Pose, n: nat)
    requires |start| == |target| && n > 0
    ensures ResetPath(start, target, n)[n - 1] == target
  {
    assert n as real / n as real == 1.0;
    assert Smooth(1.0) == 1.0;
    var last := ResetCommand(start, target, n, n);
    forall j | 0 <= j < |target| ensures last[j] == target[j] {
      assert 1.0 * (target[j] - start[j]) == target[j] - start[j];
    }
  }

  /** Every joint moves monotonically from where it stands to its target, in steps of at most 1.5·|target − start| /
      n. */
  lemma ResetIsSmooth(start: Pose, target: Pose, n: nat, k: nat, j: nat)
    requires |start| == |target| && k < n && j < |start|
    ensures Approaches(start[j], target[j],
                       if k == 0 then start[j] else ResetPath(start, target, n)[k - 1][j],
                       ResetPath(start, target, n)[k][j],
                       1.5 * Abs(target[j] - start[j]) / n as real)
  {
    hide Abs, Approaches;
    ResetStep(start, target, n, k, j);
    if k == 0 {
      ResetStartsAtStart(start, target, n, j);
    }
  }

  lemma ResetStartsAtStart(start: Pose, target: Pose, n: nat, j: nat)
    requires |start| == |target| && n > 0 && j < |start|
    ensures ResetCommand(start, target, n, 0)[j] == start[j]
  {
    assert 0 as real / n as real == 0.0;
    SmoothEnds();
    assert 0.0 * (target[j] - start[j]) == 0.0;
  }

  /** In time: a joint is commanded no faster than 1.5·|target − start| over the reset duration. */
  lemma ResetSpeed(start: Pose, target: Pose, duration: real, hz: real, k: nat, j: nat)
    requires |start| == |target| && duration > 0.0 && hz > 0.0 && j < |start|
    requires k < TotalSteps(duration, hz)
    ensures var path := ResetPath(start, target, TotalSteps(duration, hz));
      var before := if k == 0 then start[j] else path[k - 1][j];
      Abs(path[k][j] - before) <= 1.5 * Abs(target[j] - start[j]) / (duration * hz)
  {
    var n := TotalSteps(duration, hz);
    ResetIsSmooth(start, target, n, k, j);
    assert duration * hz > 0.0;
    DivideByLess(1.5 * Abs(target[j] - start[j]), duration * hz, n as real);
  }

  lemma DivideByLess(x: real, small: real, large: real)
    requires x >= 0.0 && 0.0 < small <= large
    ensures x / large <= x / small
  {
    var a, b := x / large, x / small;
    assert a * large == x && b * small == x;
    Product(x, large - small);
    assert (b - a) * (small * large) == x * (large - small);
    Product(small, large);
    SignOfFactor(b - a, small * large);
  }

  lemma SignOfFactor(x: real, y: real)
    requires y > 0.0 && x * y >= 0.0
    ensures x >= 0.0
  {
  }

  // ----- publish: a straight transition into the chunk, then its rows -----

  function TransitionCommand(last: Pose, first: Pose, steps: nat, k: nat): Pose
    requires |last| == |first| && steps > 0
  {
    Blend(last, first, k as real / steps as real)
  }

  function TransitionPath(last: Pose, first: Pose, steps: nat): (r: seq<Pose>)
    requires |last| == |first| && steps > 0
    ensures |r| == steps && forall k :: 0 <= k < steps ==> r[k] == TransitionCommand(last, first, steps, k + 1)
  {
    seq(steps, k requires 0 <= k < steps => TransitionCommand(last, first, steps, k + 1))
  }

  predicate Between(x: real, a: real, b: real) {
    a <= x <= b || b <= x <= a
  }

  lemma EqualStep(s: real, t: real, f: real, g: real, n: real, a: real, b: real)
    requires 0.0 <= f <= g <= 1.0 && n > 0.0 && g - f == 1.0 / n
    requires a == s + f * (t - s) && b == s + g * (t - s)
    ensures Between(b, s, t) && Abs(b - a) == Abs(t - s) / n
  {
    BlendStep(s, t, f, g, g - f, a, b);
    Regroup(Abs(t - s), n);
  }

  lemma TransitionStart(last: Pose, first: Pose, steps: nat, j: nat)
    requires |last| == |first| && steps > 0 && j < |last|
    ensures TransitionCommand(last, first, steps, 0)[j] == last[j]
  {
    assert 0 as real / steps as real == 0.0;
    assert 0.0 * (first[j] - last[j]) == 0.0;
  }

  /** Transition commands lie between the last command and the first row, in equal steps. */
  lemma TransitionIsStraight(last: Pose, first: Pose, steps: nat, k: nat, j: nat)
    requires |last| == |first| && k < steps && j < |last|
    ensures var before := if k == 0 then last[j] else TransitionPath(last, first, steps)[k - 1][j];
      var after := TransitionPath(last, first, steps)[k][j];
      Between(after, last[j], first[j]) && Abs(after - before) == Abs(first[j] - last[j]) / steps as real
  {
    hide Abs, Between;
    Fractions(steps, k);
    var a, b := TransitionCommand(last, first, steps, k), TransitionCommand(last, first, steps, k + 1);
    EqualStep(last[j], first[j], k as real / steps as real, (k + 1) as real / steps as real, steps as real, a[j], b[j]);
    if k == 0 {
      TransitionStart(last, first, steps, j);
    }
  }

  lemma TransitionArrives(last: Pose, first: Pose, steps: nat)
    requires |last| == |first| && steps > 0
    ensures TransitionPath(last, first, steps)[steps - 1] == first
  {
    assert steps as real / steps as real == 1.0;
    var end := TransitionCommand(last, first, steps, steps);
    forall j | 0 <= j < |first| ensures end[j] == first[j] {
      assert 1.0 * (first[j] - last[j]) == first[j] - last[j];
    }
  }

  predicate Bounded(pose: Pose, limit: real) {
    forall j :: 0 <= j < |pose| ==> -limit <= pose[j] <= limit
  }

  /** No transition command leaves the box that holds both its ends. */
  lemma TransitionStaysBounded(last: Pose, first: Pose, steps: nat, k: nat, limit: real)
    requires |last| == |first| && k < steps && Bounded(last, limit) && Bounded(first, limit)
    ensures Bounded(TransitionPath(last, first, steps)[k], limit)
  {
    forall j | 0 <= j < |last| ensures -limit <= TransitionPath(last, first, steps)[k][j] <= limit {
      TransitionIsStraight(last, first, steps, k, j);
    }
  }

  /** Row i may follow row i − 1. */
  predicate MayFollow(rows: seq<Pose>, i: nat, limits: Pose)
    requires 1 <= i < |rows| && |rows[i]| == |limits| && |rows[i - 1]| == |limits|
  {
    forall j :: 0 <= j < |limits| ==> Abs(rows[i][j] - rows[i - 1][j]) <= limits[j]
  }

  predicate SameWidth(rows: seq<Pose>, width: nat) {
    forall i :: 0 <= i < |rows| ==> |rows[i]| == width
  }

  /** The first k rows each may follow the one before. */
  predicate SmallSteps(rows: seq<Pose>, k: nat, limits: Pose)
    requires k <= |rows| && SameWidth(rows, |limits|)
  {
    forall i :: 1 <= i < k ==> MayFollow(rows, i, limits)
  }

  /** The commands of a chunk of which `k` rows are published: the transition, whose last command is row 0, then rows
      1 to k − 1. */
  function ChunkPath(last: Pose, rows: seq<Pose>, steps: nat, k: nat): seq<Pose>
    requires 0 < k <= |rows| && |rows[0]| == |last| && steps > 0
  {
    TransitionPath(last, rows[0], steps) + rows[1..k]
  }

  /** A chunk inside the box, started inside the box, stays inside the box. */
  lemma ChunkStaysBounded(last: Pose, rows: seq<Pose>, steps: nat, k: nat, limit: real)
    requires 0 < k <= |rows| && |rows[0]| == |last| && steps > 0
    requires Bounded(last, limit) && forall i :: 0 <= i < |rows| ==> Bounded(rows[i], limit)
    ensures forall i :: 0 <= i < |ChunkPath(last, rows, steps, k)| ==>
      Bounded(ChunkPath(last, rows, steps, k)[i], limit)
  {
    forall i | 0 <= i < |ChunkPath(last, rows, steps, k)| ensures Bounded(ChunkPath(last, rows, steps, k)[i], limit) {
      if i < steps {
        TransitionStaysBounded(last, rows[0], steps, i, limit);
      } else {
        assert ChunkPath(last, rows, steps, k)[i] == rows[i - steps + 1];
      }
    }
  }
}
