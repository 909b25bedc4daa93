/** RosActionExecutor (edge/ros2_action.py). The two command topics are one ghost trace of commands;
    any call into ROS may raise. */
module ActionExecution {
  import opened CommonTypes
  import opened Reals
  import opened MotionPaths
  import opened JointGates
  import Traces

  datatype Bridge = Bridge(
    skillArms: map<Skill, Arm>,
    resetTargets: map<Skill, Pose>,
    publishHz: real,
    resetDuration: real,
    resetTolerance: real,
    transitionSteps: int,
    maxRowDelta: Pose,
    stopHoldRepetitions: int)
  {
    predicate Valid() {
      && resetTargets.Keys == skillArms.Keys
      && (forall s :: s in resetTargets ==> |resetTargets[s]| == 7)
      && |maxRowDelta| == 7 && (forall j :: 0 <= j < 7 ==> maxRowDelta[j] > 0.0)
      && publishHz > 0.0 && resetDuration > 0.0 && resetTolerance > 0.0
      && transitionSteps > 0 && stopHoldRepetitions > 0
    }
  }

  /** One pair of joint commands. */
  datatype Command = Command(left: Pose, right: Pose)

  function Controlled(arm: Arm, command: Pose, hold: Pose): Command {
    if arm == Left then Command(command, hold) else Command(hold, command)
  }

  /** The arm follows the path while the other arm holds. */
  function Driven(arm: Arm, path: seq<Pose>, hold: Pose): (r: seq<Command>)
    ensures |r| == |path| && forall i :: 0 <= i < |r| ==> r[i] == Controlled(arm, path[i], hold)
  {
    seq(|path|, i requires 0 <= i < |path| => Controlled(arm, path[i], hold))
  }

  lemma DriveOne(arm: Arm, path: seq<Pose>, hold: Pose, i: nat)
    requires i < |path|
    ensures Driven(arm, path[..i + 1], hold) == Driven(arm, path[..i], hold) + [Controlled(arm, path[i], hold)]
  {
  }

  lemma DriveMore(arm: Arm, path: seq<Pose>, more: seq<Pose>, hold: Pose)
    ensures Driven(arm, path + more, hold) == Driven(arm, path, hold) + Driven(arm, more, hold)
    ensures forall pose :: Driven(arm, [pose], hold) == [Controlled(arm, pose, hold)]
  {
  }

  lemma NothingDriven(arm: Arm, rows: seq<Pose>, hold: Pose)
    requires |rows| > 0
    ensures Driven(arm, rows[1..1], hold) == []
  {
  }

  lemma PrefixOfStraight(straight: seq<Pose>, more: seq<Pose>, n: nat)
    requires n <= |straight|
    ensures (straight + more)[..n] == straight[..n]
  {
  }

  lemma WholeDrive(before: seq<Command>, arm: Arm, straight: seq<Pose>, rows: seq<Pose>, out: nat, hold: Pose)
    requires 1 <= out <= |rows|
    ensures before + Driven(arm, straight[..|straight|], hold) + Driven(arm, rows[1..out], hold)
      == before + Driven(arm, (straight + rows[1..])[..|straight| + out - 1], hold)
  {
    assert straight[..|straight|] == straight;
    assert (straight + rows[1..])[..|straight| + out - 1] == straight + rows[1..out];
    DriveMore(arm, straight, rows[1..out], hold);
  }

  function Repeated<T>(x: T, n: nat): (r: seq<T>)
    ensures |r| == n && forall i :: 0 <= i < n ==> r[i] == x
  {
    seq(n, _ => x)
  }

  datatype PublishResult = PublishResult(
    stopRequested: bool,
    reason: Option<string>,
    publishedRows: nat,
    gateResult: Option<GateResult>)

  /** How many rows of a chunk are out when `sent` of its commands are: the last transition command is row 0. */
  function RowsOut(sent: nat, steps: nat): nat {
    if sent < steps then 0 else sent - steps + 1
  }

  /** `np.any(np.abs(row - last) > limits)`. */
  predicate Strays(row: Pose, last: Pose, limits: Pose)
    requires |row| == |limits| && |last| == |limits|
  {
    exists j :: 0 <= j < |limits| && Abs(row[j] - last[j]) > limits[j]
  }

  lemma NoStepsYet(rows: seq<Pose>, limits: Pose)
    requires SameWidth(rows, |limits|)
    ensures SmallSteps(rows, 0, limits) && (rows != [] ==> SmallSteps(rows, 1, limits))
  {
  }

  lemma OneMoreRow(rows: seq<Pose>, k: nat, limits: Pose)
    requires 0 < k < |rows| && SameWidth(rows, |limits|) && SmallSteps(rows, k, limits)
    requires !Strays(rows[k], rows[k - 1], limits)
    ensures SmallSteps(rows, k + 1, limits)
  {
  }

  // ----- staying inside the box -----

  /** A pose the policy commanded, and the pose its stage started from. */
  datatype Policy = Policy(start: Pose, pose: Pose)

  function Since(start: Pose, path: seq<Pose>): (r: seq<Policy>)
    ensures |r| == |path| && forall i :: 0 <= i < |r| ==> r[i] == Policy(start, path[i])
  {
    seq(|path|, i requires 0 <= i < |path| => Policy(start, path[i]))
  }

  predicate AllBounded(poses: seq<Pose>, limit: real) {
    forall i :: 0 <= i < |poses| ==> Bounded(poses[i], limit)
  }

  /** A stage that started inside the box commanded nothing outside it. */
  predicate Boxed(policy: seq<Policy>, limit: real) {
    forall i :: 0 <= i < |policy| && Bounded(policy[i].start, limit) ==> Bounded(policy[i].pose, limit)
  }

  lemma ChunkIsBoxed(policy: seq<Policy>, start: Pose, last: Pose, rows: seq<Pose>, steps: nat, sent: nat, limit: real)
    requires Boxed(policy, limit) && |rows| > 0 && |rows[0]| == |last| && steps > 0
    requires Bounded(start, limit) ==> Bounded(last, limit)
    requires AllBounded(rows, limit) && sent <= |ChunkPath(last, rows, steps, |rows|)|
    ensures Boxed(policy + Since(start, ChunkPath(last, rows, steps, |rows|)[..sent]), limit)
  {
    if Bounded(start, limit) {
      ChunkStaysBounded(last, rows, steps, |rows|, limit);
    }
  }

  // ----- the log of calls -----

  /** A call, with how many commands and how many policy poses had gone out before it. */
  datatype RobotCall = RobotCall(act: Traces.Act, commands: nat, policy: nat)

  function Acts(calls: seq<RobotCall>): (r: seq<Traces.Act>)
    ensures |r| == |calls| && forall i :: 0 <= i < |r| ==> r[i] == calls[i].act
  {
    seq(|calls|, i requires 0 <= i < |calls| => calls[i].act)
  }

  /** One pose, over and over. */
  predicate Held(commands: seq<Command>) {
    forall i, j :: 0 <= i < |commands| && 0 <= j < |commands| ==> commands[i] == commands[j]
  }

  /** Every command went out in one of the calls: policy poses in a publish, a held pose in a stop, nothing in a
      begin_stage. */
  predicate Booked(calls: seq<RobotCall>, commands: seq<Command>, policy: nat)
    decreases |calls|
  {
    if calls == [] then commands == [] && policy == 0
    else
      var last := calls[|calls| - 1];
      && last.commands <= |commands| && last.policy <= policy
      && (!last.act.PublishChunk? ==> last.policy == policy)
      && (last.act.StopArm? ==> Held(commands[last.commands..]))
      && (last.act.BeginStage? ==> last.commands == |commands|)
      && Booked(calls[..|calls| - 1], commands[..last.commands], last.policy)
  }

  /** A call is booked with what it sent. */
  lemma BookedMore(calls: seq<RobotCall>, commands: seq<Command>, policy: nat, act: Traces.Act, after: seq<Command>,
                   posed: nat)
    requires commands <= after && policy <= posed
    requires !act.PublishChunk? ==> policy == posed
    requires act.StopArm? ==> Held(after[|commands|..])
    requires act.BeginStage? ==> after == commands
    ensures Booked(calls, commands, policy) ==> Booked(calls + [RobotCall(act, |commands|, policy)], after, posed)
  {
    var longer := calls + [RobotCall(act, |commands|, policy)];
    assert longer[..|calls|] == calls && after[..|commands|] == commands;
  }

  function PolicyBy(calls: seq<RobotCall>, policy: nat, k: nat): nat {
    if k < |calls| then calls[k].policy else policy
  }

  /** Each pose a policy asked for was sent by a publish. */
  lemma {:induction false} PolicyIsPublished(calls: seq<RobotCall>, commands: seq<Command>, policy: nat, i: nat)
    returns (k: nat)
    requires Booked(calls, commands, policy) && i < policy
    ensures k < |calls| && calls[k].act.PublishChunk? && calls[k].policy <= i < PolicyBy(calls, policy, k + 1)
    decreases |calls|
  {
    var last := |calls| - 1;
    if calls[last].policy <= i {
      k := last;
    } else {
      k := PolicyIsPublished(calls[..last], commands[..calls[last].commands], calls[last].policy, i);
    }
  }

  // ----- the executor -----

  class RosActionExecutor {
    const config: Bridge
    const gate: OnlineJointGate
    var activeSkill: Option<Skill>
    var publishedRows: nat
    var lastCommand: Option<Pose>
    var hasPublished: bool
    var preflightComplete: bool

    /** Every command pair published so far. */
    ghost var commands: seq<Command>
    /** The poses among them that a policy asked for, and where the current stage started. */
    ghost var policy: seq<Policy>
    ghost var stageStart: Pose
    /** Every call so far. */
    ghost var calls: seq<RobotCall>

    /** The log of calls accounts for all that was sent. */
    ghost predicate Kept()
      reads this`calls, this`commands, this`policy
    {
      Booked(calls, commands, |policy|)
    }

    ghost method Log(act: Traces.Act)
      modifies this`calls
      ensures calls == old(calls) + [RobotCall(act, |commands|, |policy|)]
      ensures Acts(calls) == Acts(old(calls)) + [act]
    {
      calls := calls + [RobotCall(act, |commands|, |policy|)];
    }

    ghost predicate Valid()
      reads this, gate
    {
      && config.Valid() && gate.Valid()
      && (activeSkill.Some? <==> lastCommand.Some?)
      && (activeSkill.Some? ==>
            && preflightComplete && activeSkill.value in config.skillArms && activeSkill.value in gate.profiles
            && |lastCommand.value| == 7)
    }

    constructor (config: Bridge, gate: OnlineJointGate)
      requires config.Valid() && gate.Valid()
      ensures Valid() && this.config == config && this.gate == gate
      ensures activeSkill.None? && !hasPublished && !preflightComplete && commands == [] && policy == []
      ensures calls == []
    {
      this.config, this.gate := config, gate;
      activeSkill, lastCommand, publishedRows := None, None, 0;
      hasPublished, preflightComplete := false, false;
      commands, policy, stageStart, calls := [], [], [], [];
    }

    ghost predicate InBox(limit: real)
      reads this`policy, this`lastCommand, this`stageStart
    {
      && Boxed(policy, limit)
      && (lastCommand.Some? && Bounded(stageStart, limit) ==> Bounded(lastCommand.value, limit))
    }

    /** All that an orchestrator relies on. */
    ghost predicate Fit(limit: real)
      reads this, gate
    {
      Valid() && InBox(limit) && Kept()
    }

    /** `joint_snapshot` of the observation source: raises when no joint message has arrived. */
    method JointSnapshot() returns (left: Pose, right: Pose, available: bool)
      ensures available ==> |left| == 7 && |right| == 7
    {
      left, right := *, *;
      available := |left| == 7 && |right| == 7;
    }

    method ArmSnapshot(arm: Arm) returns (controlled: Pose, other: Pose, available: bool)
      ensures available ==> |controlled| == 7 && |other| == 7
    {
      var left, right, seen := JointSnapshot();
      return if arm == Left then left else right, if arm == Left then right else left, seen;
    }

    method PublishPair(command: Command)
      modifies this`hasPublished, this`commands
      ensures hasPublished && commands == old(commands) + [command]
    {
      hasPublished := true;
      commands := commands + [command];
    }

    method Preflight() returns (r: Outcome<()>)
      requires Valid()
      modifies this`preflightComplete
      ensures Valid() && (r.Returned? <==> preflightComplete) && (old(preflightComplete) ==> preflightComplete)
    {
      if preflightComplete {
        return Returned(());
      }
      var clear: bool := *;
      if !clear {
        return Raised(StateRejected);
      }
      preflightComplete := true;
      return Returned(());
    }

    /** The first `sent` commands of a reset that found the arm at `start`. */
    ghost function ResetDrive(skill: Skill, start: Pose, hold: Pose, sent: nat): seq<Command>
      requires config.Valid() && (sent > 0 ==> skill in config.resetTargets && |start| == 7)
      requires sent <= TotalSteps(config.resetDuration, config.publishHz)
    {
      if sent == 0 then []
      else
        var path := ResetPath(start, config.resetTargets[skill], TotalSteps(config.resetDuration, config.publishHz));
        Driven(config.skillArms[skill], path[..sent], hold)
    }

    /** Moves the skill's arm to its reset target. `start` and `hold` are the poses it found, `sent` how many
        commands went out. */
    method Reset(skill: Skill) returns (r: Outcome<()>, ghost start: Pose, ghost hold: Pose, ghost sent: nat)
      requires Valid()
      modifies this`hasPublished, this`commands, this`preflightComplete, this`calls
      ensures Acts(calls) == Acts(old(calls)) + [Traces.ResetArm] && (old(Kept()) ==> Kept())
      ensures Valid() && (old(preflightComplete) ==> preflightComplete)
      ensures sent > 0 ==> skill in config.resetTargets && |start| == 7
      ensures sent <= TotalSteps(config.resetDuration, config.publishHz)
      ensures commands == old(commands) + ResetDrive(skill, start, hold, sent)
      // a reset that returns has sent the whole path, whose last command is the target
      ensures r.Returned? ==> sent == TotalSteps(config.resetDuration, config.publishHz)
      ensures r.Returned? ==>
        commands[|commands| - 1] == Controlled(config.skillArms[skill], config.resetTargets[skill], hold)
    {
      hide ResetDrive, Controlled, gate.Valid, Booked, Acts;
      Log(Traces.ResetArm);
      r, start, hold, sent := Move(skill);
      BookedMore(old(calls), old(commands), |old(policy)|, Traces.ResetArm, commands, |policy|);
    }

    /** The motion of a reset. */
    method Move(skill: Skill)
      returns (r: Outcome<()>, ghost start: Pose, ghost hold: Pose, ghost sent: nat)
      requires Valid()
      modifies this`hasPublished, this`commands, this`preflightComplete
      ensures Valid() && (old(preflightComplete) ==> preflightComplete)
      ensures sent > 0 ==> skill in config.resetTargets && |start| == 7
      ensures sent <= TotalSteps(config.resetDuration, config.publishHz)
      ensures commands == old(commands) + ResetDrive(skill, start, hold, sent)
      // a reset that returns has sent the whole path, whose last command is the target
      ensures r.Returned? ==> sent == TotalSteps(config.resetDuration, config.publishHz)
      ensures r.Returned? ==>
        commands[|commands| - 1] == Controlled(config.skillArms[skill], config.resetTargets[skill], hold)
    {
      hide Smooth, Controlled, gate.Valid;
      start, hold, sent := [], [], 0;
      var ready := Preflight();
      if ready.Raised? || skill !in config.resetTargets {
        return Raised(PipelineFailed), start, hold, sent;
      }
      var target, arm := config.resetTargets[skill], config.skillArms[skill];
      var from, other, seen := ArmSnapshot(arm);
      if !seen {
        return Raised(PipelineFailed), start, hold, sent;
      }
      start, hold := from, other;
      var total := TotalSteps(config.resetDuration, config.publishHz);
      ghost var path := ResetPath(start, target, total);
      var index := 0;
      while index < total
        invariant 0 <= index <= total && sent == index
        invariant Valid() && preflightComplete
        invariant commands == old(commands) + Driven(arm, path[..index], hold)
      {
        var interrupted: bool := *;
        if interrupted {
          return Raised(PipelineFailed), start, hold, sent;
        }
        var fraction := (index + 1) as real / total as real;
        PublishPair(Controlled(arm, Blend(from, target, Smooth(fraction)), other));
        DriveOne(arm, path, hold, index);
        index, sent := index + 1, sent + 1;
      }
      assert path[..total] == path;
      ResetEndsAtTarget(start, target, total);
      assert commands[|commands| - 1] == Driven(arm, path, hold)[total - 1] == Controlled(arm, target, hold);
      var arrived: bool := *;
      return if arrived then Returned(()) else Raised(ActionInvalid), start, hold, sent;
    }

    /** The gate starts anew; samples may come in at once. */
    method StartGate(skill: Skill) returns (known: bool)
      requires gate.Valid()
      modifies gate
      ensures gate.Valid() && Recalls(old(gate.Shown()), gate.Shown())
      ensures known <==> skill in gate.profiles
      ensures known ==> gate.skill == Some(skill) && !gate.departed
    {
      hide Backed;
      known := gate.Begin(skill);
      if known {
        gate.Interfere();
      }
    }

    method BeginStage(skill: Skill) returns (r: Outcome<()>)
      requires Valid()
      modifies this`activeSkill, this`publishedRows, this`lastCommand, this`preflightComplete, this`stageStart,
        this`calls, gate
      ensures Acts(calls) == Acts(old(calls)) + [Traces.BeginStage] && (old(Kept()) ==> Kept())
      ensures Recalls(old(gate.Shown()), gate.Shown())
      ensures Valid() && (old(preflightComplete) ==> preflightComplete)
      ensures r.Returned? ==>
        activeSkill == Some(skill) && publishedRows == 0 && gate.skill == Some(skill) && !gate.departed
      ensures r.Raised? ==>
        activeSkill == old(activeSkill) && publishedRows == old(publishedRows) && lastCommand == old(lastCommand)
      ensures forall limit :: old(InBox(limit)) ==> InBox(limit)
    {
      hide gate.Valid, Bounded, Boxed, Booked, Acts, Recalls;
      RecallsItself(gate.Shown());
      Log(Traces.BeginStage);
      BookedMore(old(calls), old(commands), |old(policy)|, Traces.BeginStage, commands, |policy|);
      var ready := Preflight();
      if ready.Raised? {
        return ready;
      }
      var known := StartGate(skill);
      if !known || skill !in config.skillArms {
        return Raised(PipelineFailed);
      }
      var controlled, _, seen := ArmSnapshot(config.skillArms[skill]);
      if !seen {
        return Raised(PipelineFailed);
      }
      activeSkill, publishedRows, lastCommand := Some(skill), 0, Some(controlled);
      stageStart := controlled;
      return Returned(());
    }

    /** The commands a chunk asks for, all of them. */
    ghost function Way(rows: seq<Pose>): seq<Pose>
      requires Valid() && SameWidth(rows, 7)
      reads this, gate
    {
      if lastCommand.Some? && rows != [] then ChunkPath(lastCommand.value, rows, config.transitionSteps, |rows|) else []
    }

    /** The first `sent` of them. */
    ghost function Drive(rows: seq<Pose>, hold: Pose, sent: nat): seq<Command>
      requires Valid() && SameWidth(rows, 7) && sent <= |Way(rows)|
      reads this, gate
    {
      if activeSkill.None? then [] else Driven(config.skillArms[activeSkill.value], Way(rows)[..sent], hold)
    }

    /** Asks the gate after a row. */
    method Poll() returns (r: Option<GateResult>)
      requires Valid() && activeSkill.Some?
      modifies gate
      ensures Valid()
      ensures r.Some? ==> Rested(r)
      ensures Recalls(old(gate.Shown()), gate.Shown())
    {
      ghost var xs, ys;
      r, xs, ys := gate.ReachedResult(activeSkill.value, publishedRows);
    }

    /** The gate's own account of why the stage may stop here. */
    ghost predicate Rested(result: Option<GateResult>)
      reads this`activeSkill, this`publishedRows, gate
    {
      && activeSkill.Some? && activeSkill.value in gate.profiles && result.Some?
      && publishedRows >= gate.profiles[activeSkill.value].minPublishStep
      && gate.skill == activeSkill && gate.Earned(activeSkill.value, result.value)
    }

    /** The straight line into the chunk; cut short when a call raises. */
    method Approach(arm: Arm, last: Pose, first: Pose, hold: Pose) returns (sent: nat)
      requires Valid() && |last| == |first|
      modifies this`hasPublished, this`commands
      ensures Valid() && sent <= config.transitionSteps
      ensures commands == old(commands) + Driven(arm, TransitionPath(last, first, config.transitionSteps)[..sent], hold)
    {
      hide Blend, Controlled;
      var steps := config.transitionSteps;
      ghost var way := TransitionPath(last, first, steps);
      sent := 0;
      while sent < steps
        invariant 0 <= sent <= steps && Valid()
        invariant commands == old(commands) + Driven(arm, way[..sent], hold)
      {
        var interrupted: bool := *;
        if interrupted {
          return;
        }
        PublishPair(Controlled(arm, Blend(last, first, (sent + 1) as real / steps as real), hold));
        DriveOne(arm, way, hold, sent);
        sent := sent + 1;
      }
    }

    /** Row 0 is out: the other rows, one by one, each checked against the one before. */
    method Follow(arm: Arm, rows: seq<Pose>, hold: Pose) returns (r: Outcome<PublishResult>, ghost out: nat)
      requires Valid() && SameWidth(rows, 7) && activeSkill.Some? && |rows| > 0 && lastCommand == Some(rows[0])
      modifies this`publishedRows, this`lastCommand, this`hasPublished, this`commands, gate
      ensures Valid() && activeSkill == old(activeSkill)
      ensures 1 <= out <= |rows| && SmallSteps(rows, out, config.maxRowDelta)
      ensures commands == old(commands) + Driven(arm, rows[1..out], hold)
      ensures publishedRows == old(publishedRows) + out - 1 && lastCommand == Some(rows[out - 1])
      ensures r.Returned? ==> Settled(r.value, out, |rows|)
      ensures r.Raised? ==> !BudgetFault(r.code)
      ensures Recalls(old(gate.Shown()), gate.Shown())
    {
      hide Rested, gate.Valid, gate.View, Driven, Controlled, Strays, SmallSteps,
        Recalls;
      NoStepsYet(rows, config.maxRowDelta);
      RecallsItself(gate.Shown());
      out := 1;
      var row := 1;
      while row < |rows|
        invariant 1 <= row <= |rows| && out == row
        invariant Valid() && lastCommand == Some(rows[row - 1]) && publishedRows == old(publishedRows) + row - 1
        invariant activeSkill == old(activeSkill) && Recalls(old(gate.Shown()), gate.Shown())
        invariant commands == old(commands) + Driven(arm, rows[1..row], hold)
        invariant SmallSteps(rows, row, config.maxRowDelta)
      {
        var strays := Strays(rows[row], lastCommand.value, config.maxRowDelta);
        var interrupted: bool := *;
        if strays || interrupted {
          return Raised(if strays then ActionInvalid else PipelineFailed), out;
        }
        OneMoreRow(rows, row, config.maxRowDelta);
        PublishPair(Controlled(arm, rows[row], hold));
        DriveMore(arm, rows[1..row], [rows[row]], hold);
        assert rows[1..row] + [rows[row]] == rows[1..row + 1];
        lastCommand, publishedRows := Some(rows[row]), publishedRows + 1;
        row, out := row + 1, out + 1;
        ghost var shown := gate.Shown();
        var result := Poll();
        RecallsOn(old(gate.Shown()), shown, gate.Shown());
        if result.Some? {
          return Returned(PublishResult(true, Some("joint_rest_detected"), row, result)), out;
        }
      }
      return Returned(PublishResult(false, None, |rows|, None)), out;
    }

    /** What a publish call may return after `out` of `all` rows: all rows and no verdict, or an earned stop. */
    ghost predicate Settled(result: PublishResult, out: nat, all: nat)
      reads this`activeSkill, this`publishedRows, gate
    {
      && result.publishedRows == out
      && (if result.stopRequested then Rested(result.gateResult) else out == all && result.gateResult.None?)
    }

    /** The transition is out, and with it row 0: the gate is asked, then the other rows follow. */
    method Arrive(arm: Arm, rows: seq<Pose>, hold: Pose) returns (r: Outcome<PublishResult>, ghost out: nat)
      requires Valid() && SameWidth(rows, 7) && activeSkill.Some? && rows != []
      modifies this`publishedRows, this`lastCommand, this`hasPublished, this`commands, gate
      ensures Valid() && activeSkill == old(activeSkill)
      ensures 1 <= out <= |rows| && SmallSteps(rows, out, config.maxRowDelta)
      ensures commands == old(commands) + Driven(arm, rows[1..out], hold)
      ensures publishedRows == old(publishedRows) + out && lastCommand == Some(rows[out - 1])
      ensures r.Returned? ==> Settled(r.value, out, |rows|)
      ensures r.Raised? ==> !BudgetFault(r.code)
      ensures Recalls(old(gate.Shown()), gate.Shown())
    {
      hide Rested, gate.Valid, gate.View, Driven, Controlled, SmallSteps, Recalls;
      NoStepsYet(rows, config.maxRowDelta);
      publishedRows := publishedRows + 1;
      lastCommand := Some(rows[0]);
      var result := Poll();
      if result.Some? {
        NothingDriven(arm, rows, hold);
        return Returned(PublishResult(true, Some("joint_rest_detected"), 1, result)), 1;
      }
      ghost var polled := gate.Shown();
      r, out := Follow(arm, rows, hold);
      RecallsOn(old(gate.Shown()), polled, gate.Shown());
    }

    /** The commands of a chunk, from the last command on: a prefix of the transition and the rows. */
    method Send(arm: Arm, rows: seq<Pose>, hold: Pose) returns (r: Outcome<PublishResult>, ghost sent: nat)
      requires Valid() && SameWidth(rows, 7) && activeSkill.Some? && rows != []
      modifies this`publishedRows, this`lastCommand, this`hasPublished, this`commands, gate
      ensures Valid() && activeSkill == old(activeSkill)
      ensures lastCommand.Some? && (lastCommand.value == old(lastCommand).value || lastCommand.value in rows)
      ensures sent <= |old(Way(rows))| && commands == old(commands) + Driven(arm, old(Way(rows))[..sent], hold)
      ensures var out := RowsOut(sent, config.transitionSteps);
        && out <= |rows| && SmallSteps(rows, out, config.maxRowDelta)
        && (r.Returned? ==>
              && 0 < out && publishedRows == old(publishedRows) + out && lastCommand == Some(rows[out - 1])
              && Settled(r.value, out, |rows|))
      ensures r.Raised? ==> !BudgetFault(r.code)
      ensures Recalls(old(gate.Shown()), gate.Shown())
    {
      hide Rested, gate.Valid, gate.View, TransitionCommand, MayFollow, Abs, Blend, TransitionPath, Driven, Controlled,
        SmallSteps, Recalls, Settled;
      RecallsItself(gate.Shown());
      NoStepsYet(rows, config.maxRowDelta);
      var first, last, steps := rows[0], lastCommand.value, config.transitionSteps;
      ghost var straight := TransitionPath(last, first, steps);
      assert Way(rows) == straight + rows[1..];
      var transition := Approach(arm, last, first, hold);
      sent := transition;
      if transition < steps {
        PrefixOfStraight(straight, rows[1..], sent);
        return Raised(ErrorCode.PipelineFailed), sent;
      }
      ghost var out;
      r, out := Arrive(arm, rows, hold);
      sent := steps + out - 1;
      WholeDrive(old(commands), arm, straight, rows, out, hold);
    }

    method Publish(rows: seq<Pose>) returns (r: Outcome<PublishResult>, ghost hold: Pose, ghost sent: nat)
      requires Valid() && SameWidth(rows, 7)
      modifies this`publishedRows, this`lastCommand, this`hasPublished, this`commands, this`policy, this`calls, gate
      ensures Acts(calls) == Acts(old(calls)) + [Traces.PublishChunk] && (old(Kept()) ==> Kept())
      ensures Recalls(old(gate.Shown()), gate.Shown())
      ensures Valid() && activeSkill == old(activeSkill)
      // what went out is a prefix of what the chunk asks for, and no row that strays too far from the one before
      ensures sent <= |old(Way(rows))| && commands == old(commands) + old(Drive(rows, hold, sent))
      ensures RowsOut(sent, config.transitionSteps) <= |rows|
      ensures SmallSteps(rows, RowsOut(sent, config.transitionSteps), config.maxRowDelta)
      ensures r.Returned? ==>
        var k := r.value.publishedRows;
        && old(activeSkill).Some? && 0 < k <= |rows| && RowsOut(sent, config.transitionSteps) == k
        && publishedRows == old(publishedRows) + k && lastCommand == Some(rows[k - 1])
        && Settled(r.value, k, |rows|)
      ensures r.Raised? ==> !BudgetFault(r.code)
      ensures policy == old(policy) + Since(stageStart, old(Way(rows))[..sent])
      ensures forall limit :: old(InBox(limit)) && AllBounded(rows, limit) ==> InBox(limit)
    {
      hide Rested, gate.Valid, gate.View, TransitionCommand, MayFollow, Since, Boxed, Bounded, AllBounded, Abs, Blend,
        TransitionPath, Driven, Controlled, SmallSteps, Booked, Acts;
      NoStepsYet(rows, config.maxRowDelta);
      hold, sent := [], 0;
      Log(Traces.PublishChunk);
      BookedMore(old(calls), old(commands), |old(policy)|, Traces.PublishChunk, commands, |policy|);
      if !preflightComplete || activeSkill.None? || lastCommand.None? {
        return Raised(StateRejected), hold, sent;
      }
      assert Since(stageStart, Way(rows)[..0]) == [];
      var arm := config.skillArms[activeSkill.value];
      var _, other, seen := ArmSnapshot(arm);
      if !seen || rows == [] {
        return Raised(PipelineFailed), hold, sent;
      }
      hold := other;
      ghost var last := lastCommand.value;
      r, sent := Send(arm, rows, other);
      NotePolicy(last, rows, sent);
      BookedMore(old(calls), old(commands), |old(policy)|, Traces.PublishChunk, commands, |policy|);
    }

    /** The stage has stayed in the box up to the command `last`. */
    ghost predicate BoxedSoFar(before: seq<Policy>, last: Pose, limit: real)
      reads this`stageStart
    {
      Boxed(before, limit) && (Bounded(stageStart, limit) ==> Bounded(last, limit))
    }

    ghost method NotePolicy(last: Pose, rows: seq<Pose>, sent: nat)
      requires |rows| > 0 && |rows[0]| == |last| && config.transitionSteps > 0
      requires sent <= |ChunkPath(last, rows, config.transitionSteps, |rows|)|
      requires lastCommand.Some? && (lastCommand.value == last || lastCommand.value in rows)
      modifies this`policy
      ensures policy == old(policy) + Since(stageStart, ChunkPath(last, rows, config.transitionSteps, |rows|)[..sent])
      ensures forall limit ::
        BoxedSoFar(old(policy), last, limit) && AllBounded(rows, limit) ==> InBox(limit)
    {
      policy := policy + Since(stageStart, ChunkPath(last, rows, config.transitionSteps, |rows|)[..sent]);
      forall limit | BoxedSoFar(old(policy), last, limit) && AllBounded(rows, limit)
        ensures InBox(limit)
      {
        ChunkIsBoxed(old(policy), stageStart, last, rows, config.transitionSteps, sent, limit);
      }
    }

    /** Holds both arms where they are, if they were ever commanded, and ends the stage. */
    method Stop() returns (r: Outcome<()>, ghost hold: Command, ghost sent: nat)
      requires Valid()
      modifies this`activeSkill, this`lastCommand, this`hasPublished, this`commands, this`calls
      ensures Acts(calls) == Acts(old(calls)) + [Traces.StopArm] && (old(Kept()) ==> Kept())
      ensures Valid()
      ensures commands == old(commands) + Repeated(hold, sent) && sent <= config.stopHoldRepetitions
      ensures !old(hasPublished) || !preflightComplete ==> sent == 0 && r.Returned?
      ensures r.Returned? ==>
        activeSkill.None? && (preflightComplete ==> !hasPublished) && (sent == 0 || sent == config.stopHoldRepetitions)
      ensures r.Raised? ==> activeSkill == old(activeSkill) && lastCommand == old(lastCommand)
      ensures forall limit :: old(InBox(limit)) ==> InBox(limit)
    {
      hide Booked, Acts;
      hold, sent := Command([], []), 0;
      Log(Traces.StopArm);
      BookedMore(old(calls), old(commands), |old(policy)|, Traces.StopArm, commands, |policy|);
      if !preflightComplete || !hasPublished {
        activeSkill, lastCommand := None, None;
        return Returned(()), hold, sent;
      }
      var left, right, seen := JointSnapshot();
      if !seen {
        hasPublished, activeSkill, lastCommand := false, None, None;
        return Returned(()), hold, sent;
      }
      hold := Command(left, right);
      var index := 0;
      while index < config.stopHoldRepetitions
        invariant 0 <= index <= config.stopHoldRepetitions && sent == index
        invariant Valid() && hasPublished && activeSkill == old(activeSkill) && lastCommand == old(lastCommand)
        invariant commands == old(commands) + Repeated(hold, index)
        invariant calls == old(calls) + [RobotCall(Traces.StopArm, |old(commands)|, |old(policy)|)]
      {
        var interrupted: bool := *;
        if interrupted {
          BookedMore(old(calls), old(commands), |old(policy)|, Traces.StopArm, commands, |policy|);
          return Raised(PipelineFailed), hold, sent;
        }
        PublishPair(Command(left, right));
        index, sent := index + 1, sent + 1;
      }
      BookedMore(old(calls), old(commands), |old(policy)|, Traces.StopArm, commands, |policy|);
      hasPublished, activeSkill, lastCommand := false, None, None;
      return Returned(()), hold, sent;
    }
  }
}
