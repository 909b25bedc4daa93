/** The order in which a run calls the robot and the server, as a language over its calls. */
module Traces {
  import opened CommonTypes

  datatype Command = PrepareSkill | BeginTrial | OpenSession | CloseSession | EndTrial | AbortTrial

  /** A call the orchestrator makes, noted when it makes it. */
  datatype Act =
    | ResetArm
    | BeginStage
    | PublishChunk
    | StopArm
    | Infer
    | Remote(command: Command)
    | CommitStage
    | Failure                                  // entering _safe_stop

  datatype Phase = Between | InStage | MustStop | Halted

  function After(p: Phase, a: Act): Option<Phase> {
    match p
    case Between =>
      (match a
       case BeginStage => Some(InStage)
       case Failure => Some(MustStop)
       case PublishChunk => None
       case Infer => None
       case Remote(c) => if c == AbortTrial then None else Some(Between)
       case _ => Some(Between))
    case InStage =>
      (match a
       case PublishChunk => Some(InStage)
       case Infer => Some(InStage)
       case StopArm => Some(Between)
       case Failure => Some(MustStop)
       case _ => None)
    case MustStop => if a == StopArm then Some(Halted) else None
    case Halted => if a == Remote(CloseSession) || a == Remote(AbortTrial) then Some(Halted) else None
  }

  /** Where a trace leads, if it is in the language. */
  function Follow(trace: seq<Act>): Option<Phase> {
    if trace == [] then Some(Between)
    else
      var before := Follow(trace[..|trace| - 1]);
      if before.Some? then After(before.value, trace[|trace| - 1]) else None
  }

  lemma FollowMore(trace: seq<Act>, a: Act)
    ensures Follow(trace + [a]) == if Follow(trace).Some? then After(Follow(trace).value, a) else None
  {
    assert (trace + [a])[..|trace|] == trace;
  }

  // ----- the calls of a trace, by whom they go to -----

  predicate RobotAct(a: Act) {
    a.ResetArm? || a.BeginStage? || a.PublishChunk? || a.StopArm?
  }

  predicate ServerAct(a: Act) {
    a.Infer? || a.Remote?
  }

  function RobotActs(trace: seq<Act>): seq<Act> {
    if trace == [] then []
    else
      var last := |trace| - 1;
      RobotActs(trace[..last]) + if RobotAct(trace[last]) then [trace[last]] else []
  }

  function ServerActs(trace: seq<Act>): seq<Act> {
    if trace == [] then []
    else
      var last := |trace| - 1;
      ServerActs(trace[..last]) + if ServerAct(trace[last]) then [trace[last]] else []
  }

  lemma ActsMore(trace: seq<Act>, a: Act)
    ensures RobotActs(trace + [a]) == RobotActs(trace) + if RobotAct(a) then [a] else []
    ensures ServerActs(trace + [a]) == ServerActs(trace) + if ServerAct(a) then [a] else []
  {
    assert (trace + [a])[..|trace|] == trace;
  }

  /** A call that keeps a publish possible next. */
  predicate OpensStage(a: Act) {
    a.BeginStage? || a.PublishChunk?
  }

  predicate PublishesFollow(arm: seq<Act>) {
    forall k :: 0 <= k < |arm| && arm[k].PublishChunk? ==> k > 0 && OpensStage(arm[k - 1])
  }

  /** Of the calls to the arm, each publish comes straight after a begin_stage or another publish, and once a failure
      is handled the last one is the stop. */
  lemma {:induction false} ArmOrder(trace: seq<Act>)
    requires Follow(trace).Some?
    ensures var arm := RobotActs(trace);
      && PublishesFollow(arm)
      && (Follow(trace) == Some(InStage) ==> arm != [] && OpensStage(arm[|arm| - 1]))
      && (Follow(trace) == Some(Halted) ==> arm != [] && arm[|arm| - 1].StopArm?)
    decreases |trace|
  {
    if trace != [] {
      var last := |trace| - 1;
      ArmOrder(trace[..last]);
      var before, arm := RobotActs(trace[..last]), RobotActs(trace);
      assert Follow(trace) == After(Follow(trace[..last]).value, trace[last]);
      assert arm == before + if RobotAct(trace[last]) then [trace[last]] else [];
    }
  }

  lemma {:induction false} FollowPrefix(trace: seq<Act>, n: nat)
    requires n <= |trace| && Follow(trace).Some?
    ensures Follow(trace[..n]).Some?
    decreases |trace|
  {
    if n < |trace| {
      FollowPrefix(trace[..|trace| - 1], n);
      assert trace[..|trace| - 1][..n] == trace[..n];
    } else {
      assert trace[..n] == trace;
    }
  }

  /** Inside a stage: it began, and neither a stop nor a failure came since. */
  lemma {:induction false} InStageSince(trace: seq<Act>) returns (j: nat)
    requires Follow(trace) == Some(InStage)
    ensures j < |trace| && trace[j].BeginStage? && forall k :: j < k < |trace| ==>
      trace[k].PublishChunk? || trace[k].Infer?
    decreases |trace|
  {
    var last := |trace| - 1;
    if trace[last].BeginStage? {
      j := last;
    } else {
      j := InStageSince(trace[..last]);
    }
  }

  /** Every policy chunk is published between a begin_stage and the stop that ends it; nothing else happens in
      between but inference. */
  lemma ChunksLieInsideStages(trace: seq<Act>, i: nat) returns (j: nat)
    requires Follow(trace).Some? && i < |trace| && trace[i].PublishChunk?
    ensures j < i && trace[j].BeginStage? && forall k :: j < k < i ==> trace[k].PublishChunk? || trace[k].Infer?
  {
    FollowPrefix(trace, i + 1);
    assert trace[..i + 1][..i] == trace[..i];
    j := InStageSince(trace[..i]);
  }

  lemma {:induction false} AfterFailure(trace: seq<Act>, i: nat)
    requires Follow(trace).Some? && i < |trace| && trace[i].Failure?
    ensures Follow(trace) == Some(if i == |trace| - 1 then MustStop else Halted)
    ensures i + 1 < |trace| ==> trace[i + 1].StopArm?
    ensures forall k :: i + 1 < k < |trace| ==> trace[k] == Remote(CloseSession) || trace[k] == Remote(AbortTrial)
    decreases |trace|
  {
    var last := |trace| - 1;
    if i < last {
      FollowPrefix(trace, last);
      AfterFailure(trace[..last], i);
    }
  }

  /** On a failure the arm is stopped before anything is said to the server, and nothing is published afterwards. */
  lemma FailureStopsTheArmFirst(trace: seq<Act>, i: nat, k: nat)
    requires Follow(trace).Some? && i < k < |trace| && trace[i].Failure?
    ensures trace[i + 1].StopArm?
    ensures k > i + 1 ==> trace[k] == Remote(CloseSession) || trace[k] == Remote(AbortTrial)
  {
    AfterFailure(trace, i);
  }

  /** An abort is sent only after a failure. */
  lemma {:induction false} NoAbortYet(trace: seq<Act>)
    requires Follow(trace).Some? && Follow(trace).value != Halted
    ensures Remote(AbortTrial) !in trace
    decreases |trace|
  {
    if trace != [] {
      var last := |trace| - 1;
      NoAbortYet(trace[..last]);
      assert trace == trace[..last] + [trace[last]];
    }
  }
}
