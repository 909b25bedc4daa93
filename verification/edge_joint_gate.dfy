/** The joint-rest gates (edge/joint_gate.py). Numbers are reals; a reading says whether it was finite. */
module JointGates {
  import opened CommonTypes
  import opened Reals

  type Sample = seq<real>

  datatype Arm = Left | Right

  /** A joint position as it arrives. */
  datatype Reading = Reading(values: seq<real>, finite: bool)

  /** A float that may be infinite. */
  datatype Measure = Infinite | Measured(value: real)

  datatype Reason =
    | StableTargetWindow
    | WindowNotStable
    | ArmingNotObserved
    | DepartureNotObserved
    | InsufficientSamples

  datatype GateResult = GateResult(passed: bool, samples: nat, maxError: Measure, maxSpread: Measure, reason: Reason)

  datatype Profile = Profile(
    arm: Arm,
    targets: seq<Sample>,
    indices: seq<int>,
    tolerance: seq<real>,
    departureThreshold: real,
    minPublishStep: int,
    windowSamples: int,
    maxSpread: real,
    armingIndices: seq<int>,
    armingMinAbs: seq<real>)
  {
    /** The checks of arrays(). */
    predicate Valid() {
      && |targets| > 0 && (forall k :: 0 <= k < |targets| ==> |targets[k]| == 7)
      && |indices| > 0 && |tolerance| == |indices|
      && (forall c :: 0 <= c < |indices| ==> 0 <= indices[c] < 7 && tolerance[c] > 0.0)
      && (forall c, d :: 0 <= c < d < |indices| ==> indices[c] != indices[d])
      && |armingIndices| == |armingMinAbs|
      && (forall c :: 0 <= c < |armingIndices| ==> 0 <= armingIndices[c] < 7 && armingMinAbs[c] > 0.0)
      && (forall c, d :: 0 <= c < d < |armingIndices| ==> armingIndices[c] != armingIndices[d])
      && departureThreshold > 0.0 && minPublishStep >= 0 && windowSamples > 0 && maxSpread > 0.0
    }
  }

  predicate AllSeven(samples: seq<Sample>) {
    forall i :: 0 <= i < |samples| ==> |samples[i]| == 7
  }

  // ----- spread and median -----

  /** numpy.ptp. */
  function Spread(s: seq<real>): real
    requires |s| > 0
  {
    Max(s) - Min(s)
  }

  function InsertReal(x: real, s: seq<real>): (r: seq<real>)
    ensures |r| == |s| + 1 && forall y :: y in r <==> y == x || y in s
  {
    if s == [] then [x]
    else if x <= s[0] then [x] + s
    else
      assert forall y :: y in s <==> y == s[0] || y in s[1..];
      [s[0]] + InsertReal(x, s[1..])
  }

  function SortReals(s: seq<real>): (r: seq<real>)
    ensures |r| == |s| && forall y :: y in r <==> y in s
  {
    if s == [] then []
    else
      assert forall y :: y in s <==> y == s[0] || y in s[1..];
      InsertReal(s[0], SortReals(s[1..]))
  }

  predicate Ascending(s: seq<real>) {
    forall i, j :: 0 <= i < j < |s| ==> s[i] <= s[j]
  }

  lemma {:induction false} InsertAscends(x: real, s: seq<real>)
    requires Ascending(s)
    ensures Ascending(InsertReal(x, s))
  {
    if s != [] && x > s[0] {
      var tail := s[1..];
      InsertAscends(x, tail);
      var rest := InsertReal(x, tail);
      forall j | 0 <= j < |rest| ensures s[0] <= rest[j] {
        assert rest[j] in rest;
      }
    }
  }

  lemma {:induction false} InsertPermutes(x: real, s: seq<real>)
    ensures multiset(InsertReal(x, s)) == multiset(s) + multiset{x}
  {
    if s != [] {
      assert s == [s[0]] + s[1..];
      if x > s[0] {
        InsertPermutes(x, s[1..]);
      }
    }
  }

  /** SortReals sorts: an ascending permutation, so the middle of it is the median. */
  lemma {:induction false} SortReallySorts(s: seq<real>)
    ensures Ascending(SortReals(s)) && multiset(SortReals(s)) == multiset(s)
  {
    if s != [] {
      SortReallySorts(s[1..]);
      InsertAscends(s[0], SortReals(s[1..]));
      InsertPermutes(s[0], SortReals(s[1..]));
      assert s == [s[0]] + s[1..];
    }
  }

  /** numpy.median: the middle value, or the mean of the two middle values. */
  function Median(s: seq<real>): real
    requires |s| > 0
  {
    var r := SortReals(s);
    if |s| % 2 == 1 then r[|s| / 2] else (r[|s| / 2 - 1] + r[|s| / 2]) / 2.0
  }

  /** The median lies between the least and the greatest value, for odd and even windows. */
  lemma MedianBetween(s: seq<real>)
    requires |s| > 0
    ensures Min(s) <= Median(s) <= Max(s)
  {
    var r := SortReals(s);
    SortedBetween(s);
    hide Min, Max, SortReals;
  }

  lemma SortedBetween(s: seq<real>)
    requires |s| > 0
    ensures |SortReals(s)| == |s| && forall i :: 0 <= i < |s| ==> Min(s) <= SortReals(s)[i] <= Max(s)
  {
    var r := SortReals(s);
    forall i | 0 <= i < |r| ensures Min(s) <= r[i] <= Max(s) {
      assert r[i] in s;
    }
  }

  // ----- one window against the templates -----

  function Column(samples: seq<Sample>, j: int): (r: seq<real>)
    requires 0 <= j < 7 && AllSeven(samples)
    ensures |r| == |samples| && forall i :: 0 <= i < |samples| ==> r[i] == samples[i][j]
  {
    seq(|samples|, i requires 0 <= i < |samples| => samples[i][j])
  }

  /** |median − target| at each checked index, for template k. */
  function Errors(p: Profile, samples: seq<Sample>, k: nat): (r: seq<real>)
    requires p.Valid() && k < |p.targets| && |samples| > 0 && AllSeven(samples)
    ensures |r| == |p.indices|
    ensures forall c :: 0 <= c < |r| ==> r[c] == Abs(Median(Column(samples, p.indices[c])) - p.targets[k][p.indices[c]])
  {
    seq(|p.indices|, c requires 0 <= c < |p.indices| =>
      Abs(Median(Column(samples, p.indices[c])) - p.targets[k][p.indices[c]]))
  }

  function Spreads(p: Profile, samples: seq<Sample>): (r: seq<real>)
    requires p.Valid() && |samples| > 0 && AllSeven(samples)
    ensures |r| == |p.indices|
    ensures forall c :: 0 <= c < |r| ==> r[c] == Spread(Column(samples, p.indices[c]))
  {
    seq(|p.indices|, c requires 0 <= c < |p.indices| => Spread(Column(samples, p.indices[c])))
  }

  predicate Within(p: Profile, errors: seq<real>)
    requires |errors| == |p.tolerance|
  {
    forall c :: 0 <= c < |errors| ==> errors[c] <= p.tolerance[c]
  }

  /** The first template from k on whose errors are all within tolerance. */
  function FirstMatch(p: Profile, samples: seq<Sample>, k: nat): (r: Option<nat>)
    requires p.Valid() && k <= |p.targets| && |samples| > 0 && AllSeven(samples)
    ensures r.Some? ==> k <= r.value < |p.targets| && Within(p, Errors(p, samples, r.value))
    ensures forall j :: k <= j < (if r.Some? then r.value else |p.targets|) ==> !Within(p, Errors(p, samples, j))
    decreases |p.targets| - k
  {
    if k == |p.targets| then None
    else if Within(p, Errors(p, samples, k)) then Some(k)
    else FirstMatch(p, samples, k + 1)
  }

  function WorstErrors(p: Profile, samples: seq<Sample>): (r: seq<real>)
    requires p.Valid() && |samples| > 0 && AllSeven(samples)
    ensures |r| == |p.targets|
  {
    seq(|p.targets|, k requires 0 <= k < |p.targets| => Max(Errors(p, samples, k)))
  }

  /** `_window_result`. */
  function WindowResult(p: Profile, samples: seq<Sample>): (r: GateResult)
    requires p.Valid() && |samples| > 0 && AllSeven(samples)
    ensures r.samples == |samples|
  {
    var spread := Max(Spreads(p, samples));
    var hit := FirstMatch(p, samples, 0);
    if hit.Some? && spread <= p.maxSpread then
      GateResult(true, |samples|, Measured(Max(Errors(p, samples, hit.value))), Measured(spread), StableTargetWindow)
    else
      GateResult(false, |samples|, Measured(Min(WorstErrors(p, samples))), Measured(spread), WindowNotStable)
  }

  lemma SampleNearTarget(column: seq<real>, i: nat, target: real, tolerance: real, spread: real)
    requires i < |column| && Abs(Median(column) - target) <= tolerance && Spread(column) <= spread
    ensures Abs(column[i] - target) <= tolerance + spread
  {
    MedianBetween(column);
  }

  /** At template k every sample of the window is within tolerance + max_spread, at every checked index. */
  predicate HoldsStillAt(p: Profile, samples: seq<Sample>, k: nat)
    requires p.Valid() && AllSeven(samples) && k < |p.targets|
  {
    forall c, i :: 0 <= c < |p.indices| && 0 <= i < |samples| ==>
      Abs(samples[i][p.indices[c]] - p.targets[k][p.indices[c]]) <= p.tolerance[c] + p.maxSpread
  }

  /** A passing window holds still at one template. */
  lemma PassBoundsEverySample(p: Profile, samples: seq<Sample>)
    requires p.Valid() && |samples| > 0 && AllSeven(samples) && WindowResult(p, samples).passed
    ensures exists k :: 0 <= k < |p.targets| && HoldsStillAt(p, samples, k)
  {
    var k := FirstMatch(p, samples, 0).value;
    forall c, i | 0 <= c < |p.indices| && 0 <= i < |samples|
      ensures Abs(samples[i][p.indices[c]] - p.targets[k][p.indices[c]]) <= p.tolerance[c] + p.maxSpread
    {
      PassBoundsOne(p, samples, k, c, i);
    }
    assert HoldsStillAt(p, samples, k);
  }

  lemma PassBoundsOne(p: Profile, samples: seq<Sample>, k: nat, c: nat, i: nat)
    requires p.Valid() && |samples| > 0 && AllSeven(samples) && WindowResult(p, samples).passed
    requires FirstMatch(p, samples, 0) == Some(k) && c < |p.indices| && i < |samples|
    ensures Abs(samples[i][p.indices[c]] - p.targets[k][p.indices[c]]) <= p.tolerance[c] + p.maxSpread
  {
    var spreads, errors := Spreads(p, samples), Errors(p, samples, k);
    assert spreads[c] <= Max(spreads) <= p.maxSpread;
    assert errors[c] <= p.tolerance[c];
    SampleNearTarget(Column(samples, p.indices[c]), i, p.targets[k][p.indices[c]], p.tolerance[c], p.maxSpread);
  }

  // ----- OnlineJointGate on values -----

  datatype Gate = Gate(skill: Option<Skill>, samples: seq<Sample>, departed: bool, armed: bool)

  predicate Accepted(reading: Reading) {
    |reading.values| == 7 && reading.finite
  }

  /** Every arming joint is far enough from zero; without arming joints every sample arms. */
  predicate Arms(p: Profile, sample: Sample)
    requires p.Valid() && |sample| == 7
  {
    forall c :: 0 <= c < |p.armingIndices| ==> Abs(sample[p.armingIndices[c]]) >= p.armingMinAbs[c]
  }

  /** The sample is off template k at some checked joint. */
  predicate OffTemplate(p: Profile, sample: Sample, k: nat)
    requires p.Valid() && |sample| == 7 && k < |p.targets|
  {
    exists c :: 0 <= c < |p.indices| &&
      Abs(sample[p.indices[c]] - p.targets[k][p.indices[c]]) >= Max([p.tolerance[c], p.departureThreshold])
  }

  predicate OffEveryTemplate(p: Profile, sample: Sample)
    requires p.Valid() && |sample| == 7
  {
    forall k :: 0 <= k < |p.targets| ==> OffTemplate(p, sample, k)
  }

  /** The last `n` elements, or all of them. */
  function Last<T>(s: seq<T>, n: nat): seq<T> {
    if |s| <= n then s else s[|s| - n..]
  }

  function Snapshot(p: Profile, g: Gate, skill: Skill): seq<Sample>
    requires p.Valid()
  {
    if g.skill != Some(skill) then [] else Last(g.samples, p.windowSamples)
  }

  /** The departure is noted and only the latest sample kept. */
  function Departing(g: Gate): Gate
    requires g.samples != []
  {
    g.(departed := true, samples := [g.samples[|g.samples| - 1]])
  }

  /** reached_result when no update comes in between. */
  function Polled(p: Profile, g: Gate, skill: Skill, step: int): (Gate, Option<GateResult>)
    requires p.Valid() && AllSeven(g.samples)
  {
    var samples := Snapshot(p, g, skill);
    if samples == [] || !g.armed then (g, None)
    else if !g.departed then
      (if OffEveryTemplate(p, samples[|samples| - 1]) then Departing(g) else g, None)
    else if step < p.minPublishStep || |samples| < p.windowSamples then (g, None)
    else
      var result := WindowResult(p, samples);
      (g, if result.passed then Some(result) else None)
  }

  /** evaluate when no update comes in between. */
  function Evaluated(p: Profile, g: Gate, skill: Skill): GateResult
    requires p.Valid() && AllSeven(g.samples)
  {
    var samples := Snapshot(p, g, skill);
    if !(g.skill == Some(skill) && g.armed) then GateResult(false, |samples|, Infinite, Infinite, ArmingNotObserved)
    else if !g.departed then GateResult(false, |samples|, Infinite, Infinite, DepartureNotObserved)
    else if |samples| < p.windowSamples then GateResult(false, |samples|, Infinite, Infinite, InsufficientSamples)
    else WindowResult(p, samples)
  }

  /** Polling passes exactly when enough rows were published and evaluate passes, with the same result. */
  lemma PollAgreesWithEvaluate(p: Profile, g: Gate, skill: Skill, step: int, r: GateResult)
    requires p.Valid() && AllSeven(g.samples)
    ensures Polled(p, g, skill, step).1 == Some(r) <==>
      step >= p.minPublishStep && r.passed && Evaluated(p, g, skill) == r
  {
  }

  /** A bounded deque. */
  function Push<T>(s: seq<T>, x: T, capacity: nat): seq<T> {
    Last(s + [x], capacity)
  }

  /** `r` is the verdict on the window of `history` that starts at `lo`. */
  predicate VerdictAt(p: Profile, history: seq<Sample>, lo: int, r: GateResult) {
    && p.Valid() && AllSeven(history)
    && 0 <= lo && lo + p.windowSamples <= |history|
    && r == WindowResult(p, history[lo..lo + p.windowSamples])
  }

  /** Where the evidence for a gate's state stands among the samples accepted since begin. */
  datatype Evidence = Evidence(armedBy: int, leftAt: int, keptFrom: int)

  /** The deque is the end of the history; each flag was earned by a sample of the history. */
  ghost predicate Backed(p: Profile, history: seq<Sample>, g: Gate, v: Evidence) {
    && p.Valid() && AllSeven(history)
    && |g.samples| <= |history| && g.samples == history[|history| - |g.samples|..]
    && 0 <= v.keptFrom <= |history| - |g.samples|
    && (g.armed ==> 0 <= v.armedBy < |history| && Arms(p, history[v.armedBy]))
    && (g.departed ==>
          && g.armed && v.armedBy <= v.keptFrom
          && 0 <= v.leftAt <= v.keptFrom < |history| && OffEveryTemplate(p, history[v.leftAt]))
  }

  /** What stands behind a pass: an arming sample and a sample off every template, both no later than the sample kept
      at the departure, and a passing window of samples none of which is older than that one. Either of the first two
      may come first: the departing sample is the one that was polled, and another may arm the gate in the meantime. */
  ghost predicate EarnedBy(p: Profile, history: seq<Sample>, v: Evidence, r: GateResult) {
    && p.Valid() && AllSeven(history) && r.passed && r.samples == p.windowSamples
    && 0 <= v.armedBy <= v.keptFrom < |history| && Arms(p, history[v.armedBy])
    && 0 <= v.leftAt <= v.keptFrom && OffEveryTemplate(p, history[v.leftAt])
    && exists lo :: v.keptFrom <= lo && VerdictAt(p, history, lo, r)
  }

  /** update, for a reading of the gate's own arm. */
  function Fed(p: Profile, g: Gate, x: Sample, capacity: nat): Gate
    requires p.Valid() && |x| == 7
  {
    g.(samples := Push(g.samples, x, capacity), armed := g.armed || Arms(p, x))
  }

  /** Several updates, the last one last. */
  function FedAll(p: Profile, g: Gate, xs: seq<Sample>, capacity: nat): Gate
    requires p.Valid() && AllSeven(xs)
  {
    if xs == [] then g
    else
      var last := |xs| - 1;
      Fed(p, FedAll(p, g, xs[..last], capacity), xs[last], capacity)
  }

  lemma FedNothing(p: Profile, g: Gate, capacity: nat)
    requires p.Valid()
    ensures FedAll(p, g, [], capacity) == g
  {
  }

  lemma FedOneMore(p: Profile, g: Gate, xs: seq<Sample>, x: Sample, capacity: nat)
    requires p.Valid() && AllSeven(xs) && |x| == 7
    ensures FedAll(p, g, xs + [x], capacity) == Fed(p, FedAll(p, g, xs, capacity), x, capacity)
  {
    assert (xs + [x])[..|xs|] == xs;
  }

  lemma {:induction false} FedGates(p: Profile, g: Gate, xs: seq<Sample>, capacity: nat)
    requires p.Valid() && AllSeven(xs) && capacity > 0
    ensures var n := FedAll(p, g, xs, capacity);
      && n.skill == g.skill && n.departed == g.departed && (g.armed ==> n.armed)
      && (g.samples != [] ==> n.samples != [])
    decreases |xs|
  {
    if xs != [] {
      FedGates(p, g, xs[..|xs| - 1], capacity);
    }
  }

  /** reached_result on the gate's own skill when `xs` arrive before its second critical section and `ys` before
      its third. */
  function PolledAmid(p: Profile, g: Gate, skill: Skill, step: int, xs: seq<Sample>, ys: seq<Sample>, capacity: nat)
    : (Gate, Option<GateResult>)
    requires p.Valid() && AllSeven(g.samples) && AllSeven(xs) && AllSeven(ys) && capacity > 0
  {
    var samples := Snapshot(p, g, skill);
    var met := FedAll(p, g, xs, capacity);
    var late := FedAll(p, met, ys, capacity);
    if samples == [] || !met.armed then (late, None)
    else if !g.departed then
      FedGates(p, g, xs, capacity);
      FedGates(p, met, ys, capacity);
      (if OffEveryTemplate(p, samples[|samples| - 1]) then Departing(late) else late, None)
    else if step < p.minPublishStep || |samples| < p.windowSamples then (late, None)
    else
      var result := WindowResult(p, samples);
      (late, if result.passed then Some(result) else None)
  }

  /** Without updates in between it is the sequential poll. */
  lemma PolledAlone(p: Profile, g: Gate, skill: Skill, step: int, capacity: nat)
    requires p.Valid() && AllSeven(g.samples) && capacity > 0
    ensures PolledAmid(p, g, skill, step, [], [], capacity) == Polled(p, g, skill, step)
  {
  }

  /** A profile with one joint: at rest at 1, armed from 1/2 on, departed at a distance of 1/2. */
  const ONE_JOINT := Profile(Left, [ONES], [0], [0.1], 0.5, 0, 1, 0.1, [0], [0.5])
  const ONES: Sample := [1.0, 1.0, 1.0, 1.0, 1.0, 1.0, 1.0]
  const ZEROS: Sample := [0.0, 0.0, 0.0, 0.0, 0.0, 0.0, 0.0]

  /** A gate that is not armed polls a sample off every template; the next sample arms it before the second critical
      section. The departure is noted, although the only sample that arms came after the one that departed, and is
      itself at rest. */
  lemma DepartureMayPrecedeArming(skill: Skill, step: int)
    ensures ONE_JOINT.Valid()
    ensures var begun := Gate(Some(skill), [], false, false);
      var polled := Fed(ONE_JOINT, begun, ZEROS, 1);
      var after := PolledAmid(ONE_JOINT, polled, skill, step, [ONES], [], 1).0;
      && !Arms(ONE_JOINT, ZEROS) && OffEveryTemplate(ONE_JOINT, ZEROS)
      && Arms(ONE_JOINT, ONES) && !OffEveryTemplate(ONE_JOINT, ONES)
      && !polled.armed && after == Gate(Some(skill), [ONES], true, true)
  {
    OneJointSamples();
    var begun := Gate(Some(skill), [], false, false);
    var polled := Fed(ONE_JOINT, begun, ZEROS, 1);
    assert polled == Gate(Some(skill), [ZEROS], false, false);
    assert FedAll(ONE_JOINT, polled, [ONES], 1) == Fed(ONE_JOINT, polled, ONES, 1) by {
      assert [ONES][..0] == [];
    }
    assert Push([ZEROS], ONES, 1) == [ONES];
    hide Arms, OffEveryTemplate;
  }

  lemma OneJointSamples()
    ensures ONE_JOINT.Valid()
    ensures !Arms(ONE_JOINT, ZEROS) && OffEveryTemplate(ONE_JOINT, ZEROS)
    ensures Arms(ONE_JOINT, ONES) && !OffEveryTemplate(ONE_JOINT, ONES)
  {
    assert ONE_JOINT.Valid();
    assert Abs(ZEROS[0]) < ONE_JOINT.armingMinAbs[0];
    assert OffTemplate(ONE_JOINT, ZEROS, 0) by {
      assert Abs(ZEROS[ONE_JOINT.indices[0]] - ONE_JOINT.targets[0][ONE_JOINT.indices[0]]) == 1.0;
    }
    assert !OffTemplate(ONE_JOINT, ONES, 0);
  }

  // ----- what a gate has seen -----

  /** A stage's samples. */
  datatype Seen = Seen(skill: Skill, history: seq<Sample>)

  /** Nothing seen is forgotten. */
  predicate Recalls(before: seq<Seen>, after: seq<Seen>) {
    && |before| <= |after|
    && forall i :: 0 <= i < |before| ==> before[i].skill == after[i].skill && before[i].history <= after[i].history
  }

  lemma RecallsItself(shown: seq<Seen>)
    ensures Recalls(shown, shown)
  {
  }

  lemma RecallsOn(a: seq<Seen>, b: seq<Seen>, c: seq<Seen>)
    requires Recalls(a, b) && Recalls(b, c)
    ensures Recalls(a, c)
  {
  }

  /** `x` is part of what was shown. */
  ghost predicate WasShown(shown: seq<Seen>, x: Seen) {
    exists i :: 0 <= i < |shown| && shown[i].skill == x.skill && x.history <= shown[i].history
  }

  lemma StillShown(before: seq<Seen>, after: seq<Seen>, x: Seen)
    requires WasShown(before, x) && Recalls(before, after)
    ensures WasShown(after, x)
  {
    var i :| 0 <= i < |before| && before[i].skill == x.skill && x.history <= before[i].history;
    assert after[i].skill == x.skill;
  }

  lemma FedIsBacked(p: Profile, history: seq<Sample>, g: Gate, v: Evidence, x: Sample, capacity: nat)
    requires Backed(p, history, g, v) && |x| == 7
    ensures Backed(p, history + [x], Fed(p, g, x, capacity), if g.armed then v else v.(armedBy := |history|))
  {
    var grown := history + [x];
    var samples := Push(g.samples, x, capacity);
    assert g.samples + [x] == grown[|grown| - |g.samples| - 1..];
    assert samples == grown[|grown| - |samples|..];
    assert g.armed ==> grown[v.armedBy] == history[v.armedBy];
    assert g.departed ==> grown[v.leftAt] == history[v.leftAt];
  }

  /** A stretch of a history is the same stretch of any later one. */
  lemma StretchKept(history: seq<Sample>, later: seq<Sample>, window: seq<Sample>)
    requires history <= later && |window| <= |history| && window == history[|history| - |window|..]
    ensures window == later[|history| - |window|..|history|]
  {
    assert later[..|history|] == history;
  }

  // ----- OnlineJointGate as the object it is -----

  /** One thread calls Begin and the two result methods; another feeds Update at any moment. */
  class OnlineJointGate {
    const profiles: map<Skill, Profile>
    const capacity: nat
    var skill: Option<Skill>
    var samples: seq<Sample>
    var departed: bool
    var armed: bool

    /** Every sample accepted since Begin, and where the evidence for the flags stands in it. */
    ghost var history: seq<Sample>
    ghost var evidence: Evidence
    /** The stages before this one. */
    ghost var past: seq<Seen>

    /** What the gate has been shown, stage by stage. */
    ghost function Shown(): seq<Seen>
      reads this
    {
      if skill.Some? then past + [Seen(skill.value, history)] else past
    }

    ghost predicate Valid()
      reads this
    {
      && capacity >= 1
      && (forall s :: s in profiles ==> profiles[s].Valid() && profiles[s].windowSamples <= capacity)
      && (if skill.Some? then skill.value in profiles && Backed(profiles[skill.value], history, View(), evidence)
          else View() == Gate(None, [], false, false) && history == [])
    }

    function View(): Gate
      reads this
    {
      Gate(skill, samples, departed, armed)
    }

    /** Raises on an empty or invalid set of profiles. */
    static predicate Usable(profiles: map<Skill, Profile>) {
      profiles != map[] && forall s :: s in profiles ==> profiles[s].Valid()
    }

    constructor (profiles: map<Skill, Profile>, capacity: nat)
      requires Usable(profiles)
      // the largest window of the profiles
      requires forall s :: s in profiles ==> profiles[s].windowSamples <= capacity
      requires exists s :: s in profiles && profiles[s].windowSamples == capacity
      ensures Valid() && this.profiles == profiles && View() == Gate(None, [], false, false)
    {
      this.profiles := profiles;
      this.capacity := capacity;
      skill, samples, departed, armed := None, [], false, false;
      history, evidence, past := [], Evidence(0, 0, 0), [];
    }

    method Begin(skill: Skill) returns (ok: bool)
      requires Valid()
      modifies this
      ensures Valid()
      ensures ok <==> skill in profiles
      ensures ok ==> View() == Gate(Some(skill), [], false, false) && history == []
      ensures !ok ==> View() == old(View()) && history == old(history)
      ensures past == if ok then old(Shown()) else old(past)
    {
      if skill !in profiles {
        return false;
      }
      past := Shown();
      this.skill := Some(skill);
      departed, armed, samples := false, false, [];
      history, evidence := [], Evidence(0, 0, 0);
      return true;
    }

    method Update(arm: Arm, reading: Reading)
      requires Valid()
      modifies this
      ensures Valid()
      ensures if Accepted(reading) && old(skill).Some? && profiles[old(skill).value].arm == arm then
          && history == old(history) + [reading.values]
          && View() == Fed(profiles[old(skill).value], old(View()), reading.values, capacity)
          && evidence == if old(armed) then old(evidence) else old(evidence).(armedBy := |old(history)|)
        else history == old(history) && View() == old(View()) && evidence == old(evidence)
      ensures past == old(past)
    {
      if !Accepted(reading) {
        return;
      }
      if skill.Some? && profiles[skill.value].arm == arm {
        var profile := profiles[skill.value];
        FedIsBacked(profile, history, View(), evidence, reading.values, capacity);
        samples := Push(samples, reading.values, capacity);
        evidence := if armed then evidence else evidence.(armedBy := |history|);
        history := history + [reading.values];
        if |profile.armingIndices| > 0 {
          if Arms(profile, reading.values) {
            armed := true;
          }
        } else {
          armed := true;
        }
      }
    }

    /** What the feeding thread may have done while the lock was free. */
    twostate predicate OnlyFed()
      reads this
    {
      && skill == old(skill) && departed == old(departed) && old(history) <= history
      && evidence.leftAt == old(evidence.leftAt) && evidence.keptFrom == old(evidence.keptFrom)
      && past == old(past) && (old(armed) ==> armed && evidence == old(evidence))
      && (!old(armed) && armed ==> evidence.armedBy >= |old(history)|)
      && (old(samples) != [] ==> samples != [])
      && (history == old(history) ==> View() == old(View()))
    }

    /** Any number of updates by the feeding thread. */
    method Interfere()
      requires Valid()
      modifies this
      ensures Valid() && OnlyFed() && AllSeven(history[|old(history)|..])
      ensures skill.Some? ==>
        View() == FedAll(profiles[skill.value], old(View()), history[|old(history)|..], capacity)
    {
      hide Backed, Arms;
      var n: nat := *;
      ghost var fed: seq<Sample> := [];
      while n > 0
        invariant Valid() && OnlyFed() && AllSeven(fed) && history == old(history) + fed
        invariant skill.Some? ==> View() == FedAll(profiles[skill.value], old(View()), fed, capacity)
      {
        var arm: Arm := *;
        var reading: Reading := *;
        ghost var before := history;
        Update(arm, reading);
        if history != before {
          FedOneMore(profiles[skill.value], old(View()), fed, reading.values, capacity);
          fed := fed + [reading.values];
        }
        n := n - 1;
      }
    }

    /** The third critical section of reached_result: note the departure, or say that it is known. */
    method NoteDeparture(ghost seen: nat, offEvery: bool) returns (known: bool)
      requires Valid() && skill.Some? && samples != [] && 0 < seen <= |history| && armed
      requires offEvery ==> OffEveryTemplate(profiles[skill.value], history[seen - 1])
      modifies this
      ensures Valid() && known == old(departed) && history == old(history) && past == old(past)
      ensures View() == if !known && offEvery then Departing(old(View())) else old(View())
      ensures evidence ==
        if !known && offEvery then old(evidence).(leftAt := seen - 1, keptFrom := |history| - 1) else old(evidence)
    {
      if departed {
        return true;
      }
      if offEvery {
        departed := true;
        evidence := evidence.(leftAt := seen - 1, keptFrom := |history| - 1);
        samples := [samples[|samples| - 1]];
      }
      return false;
    }

    /** `_snapshot`: the end of the deque, or nothing for another skill. */
    method TakeSnapshot(skill: Skill) returns (window: seq<Sample>)
      requires Valid() && skill in profiles
      ensures window == Snapshot(profiles[skill], View(), skill)
      ensures AllSeven(window) && |window| <= |history| && |window| <= profiles[skill].windowSamples
      ensures window != [] ==> this.skill == Some(skill) && samples != []
      ensures window == history[|history| - |window|..] && (window != [] ==> evidence.keptFrom <= |history| - |window|)
      ensures window != [] && armed ==> evidence.armedBy < |history|
    {
      if this.skill != Some(skill) || samples == [] {
        return [];
      }
      return Last(samples, profiles[skill].windowSamples);
    }

    /** The state, whose samples have seven joints. */
    ghost function Sampled(): (g: Gate)
      requires Valid()
      reads this
      ensures g == View() && AllSeven(g.samples)
    {
      assert forall i :: 0 <= i < |samples| ==> samples[i] == history[|history| - |samples| + i];
      View()
    }

    /** The sequential poll of this state. */
    ghost function Expected(skill: Skill, step: int): (Gate, Option<GateResult>)
      requires Valid() && skill in profiles
      reads this
    {
      Polled(profiles[skill], Sampled(), skill, step)
    }

    /** reached_result: three critical sections, with the feeding thread free in between. */
    method ReachedResult(skill: Skill, step: int)
      returns (r: Option<GateResult>, ghost xs: seq<Sample>, ghost ys: seq<Sample>)
      requires Valid() && skill in profiles
      modifies this
      ensures Valid() && this.skill == old(this.skill) && past == old(past)
      // exactly what the poll does amid the updates `xs` and `ys` that came in its two gaps
      ensures AllSeven(xs) && AllSeven(ys) && history == old(history) + xs + ys
      ensures this.skill == Some(skill) ==>
        (View(), r) == PolledAmid(profiles[skill], old(Sampled()), skill, step, xs, ys, capacity)
      // a pass is earned: armed, away from every template, and then a still window of later samples
      ensures r.Some? ==> this.skill == Some(skill) && step >= profiles[skill].minPublishStep && Earned(skill, r.value)
      // without an update in between it is the sequential poll
      ensures history == old(history) ==> View() == old(Expected(skill, step)).0 && r == old(Expected(skill, step)).1
      // a flag once set stays, with its evidence
      ensures old(departed) ==>
        departed && evidence.leftAt == old(evidence.leftAt) && evidence.keptFrom == old(evidence.keptFrom)
      ensures old(armed) ==> armed && evidence.armedBy == old(evidence.armedBy)
      // the sample that armed the gate is no later than the one that departed exactly if the gate was armed before
      ensures !old(departed) && departed ==> (evidence.armedBy <= evidence.leftAt <==> old(armed))
    {
      hide WindowResult, OffEveryTemplate, Snapshot, Arms, Earned, VerdictAt, Backed, FedAll;
      var profile := profiles[skill];
      var window := TakeSnapshot(skill);
      ghost var seen := history;
      Interfere();
      xs, ys := history[|seen|..], [];
      FedNothing(profile, View(), capacity);
      if window == [] {
        return None, xs, ys;
      }
      var isArmed := armed;
      ghost var met := history;
      Interfere();
      ys := history[|met|..];
      if !isArmed {
        return None, xs, ys;
      }
      assert history[|seen| - 1] == window[|window| - 1];
      var known := NoteDeparture(|seen|, OffEveryTemplate(profile, window[|window| - 1]));
      if !known || step < profile.minPublishStep || |window| < profile.windowSamples {
        return None, xs, ys;
      }
      StretchKept(seen, history, window);
      r := Judge(skill, window, |seen| - |window|);
    }

    lemma VerdictIsEarned(skill: Skill, window: seq<Sample>, lo: nat)
      requires Valid() && this.skill == Some(skill) && AllSeven(window) && |window| == profiles[skill].windowSamples
      requires lo + |window| <= |history| && window == history[lo..lo + |window|]
      requires armed && departed && evidence.keptFrom <= lo
      ensures var r := WindowResult(profiles[skill], window); r.passed ==> Earned(skill, r)
    {
      hide WindowResult, Arms, OffEveryTemplate;
      assert VerdictAt(profiles[skill], history, lo, WindowResult(profiles[skill], window));
    }

    /** The verdict on a full window. */
    method Judge(skill: Skill, window: seq<Sample>, ghost lo: nat) returns (r: Option<GateResult>)
      requires Valid() && this.skill == Some(skill) && AllSeven(window) && |window| == profiles[skill].windowSamples
      requires lo + |window| <= |history| && window == history[lo..lo + |window|]
      requires armed && departed && evidence.keptFrom <= lo
      ensures r.Some? ==> Earned(skill, r.value)
      ensures r == var result := WindowResult(profiles[skill], window); if result.passed then Some(result) else None
    {
      hide WindowResult;
      var result := WindowResult(profiles[skill], window);
      VerdictIsEarned(skill, window, lo);
      return if result.passed then Some(result) else None;
    }

    ghost predicate Earned(skill: Skill, r: GateResult)
      requires skill in profiles
      reads this
    {
      armed && departed && EarnedBy(profiles[skill], history, evidence, r)
    }

    method Evaluate(skill: Skill) returns (r: GateResult)
      requires Valid() && skill in profiles
      modifies this
      ensures Valid() && OnlyFed()
      ensures history == old(history) ==> r == Evaluated(profiles[skill], old(View()), skill)
      // a pass is earned, whatever updates come in between
      ensures r.passed ==> this.skill == Some(skill) && Earned(skill, r)
    {
      hide WindowResult, FedAll, Backed, Earned;
      var profile := profiles[skill];
      var window := TakeSnapshot(skill);
      ghost var seen := history;
      Interfere();
      var isDeparted := this.skill == Some(skill) && departed;
      var isArmed := this.skill == Some(skill) && armed;
      if !isArmed {
        return GateResult(false, |window|, Infinite, Infinite, ArmingNotObserved);
      }
      if !isDeparted {
        return GateResult(false, |window|, Infinite, Infinite, DepartureNotObserved);
      }
      if |window| < profile.windowSamples {
        return GateResult(false, |window|, Infinite, Infinite, InsufficientSamples);
      }
      StretchKept(seen, history, window);
      VerdictIsEarned(skill, window, |seen| - |window|);
      r := WindowResult(profile, window);
    }
  }
}
