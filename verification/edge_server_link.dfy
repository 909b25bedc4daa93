/** The edge's view of the server: each control command runs inside the server system to its end, one at a time,
    while requests already sent, delivery failures and a shutdown go on around it. A command may be lost on the
    way there or its reply on the way back. */
module ServerLinks {
  import opened CommonTypes
  import opened States
  import opened TrialAudit
  import opened RuntimeSpec
  import opened ServerSystem
  import opened ServerInvariant
  import opened ServerPreservation
  import opened ServerTheorems
  import opened ServerRely
  import opened ServerDisk
  import ResponseValidation
  import Traces

  /** What open-session answers. */
  datatype Grant = Grant(session: SessionId, token: string, skill: Skill, generation: nat, trial: TrialId)

  // ----- reading the server's log of events -----

  /** How an abort command fared: it reached the server, got the execution lock in time, and its manifest was
      written. */
  datatype AbortFate = AbortFate(reached: bool, inTime: bool, written: bool) {
    predicate Landed() { reached && inTime && written }
  }

  predicate ReachesAbort(e: Event) {
    e.Call? && e.first.AbortWaiting?
  }

  predicate IsAbort(e: Event) {
    ReachesAbort(e) || e.AbortEnter?
  }

  predicate EntersAbort(e: Event, written: bool) {
    e.AbortEnter? && (written ==> e.written)
  }

  /** What the events from `from` on say of the abort among them. */
  function FateOf(events: seq<Event>, from: nat): AbortFate {
    AbortFate(
      exists i :: from <= i < |events| && ReachesAbort(events[i]),
      exists i :: from <= i < |events| && EntersAbort(events[i], false),
      exists i :: from <= i < |events| && EntersAbort(events[i], true))
  }

  /** The events from `from` on come from no abort command. */
  predicate NoAbort(events: seq<Event>, from: nat) {
    forall i :: from <= i < |events| ==> !IsAbort(events[i])
  }

  /** Where a stretch of the server's run started. */
  datatype Mark = Mark(sys: System, events: seq<Event>)

  /** The later log goes on from the earlier one, without an abort command. */
  ghost predicate GoesOn(earlier: seq<Event>, later: seq<Event>) {
    earlier <= later && NoAbort(later, |earlier|)
  }

  lemma UnusedThread(used: set<ThreadId>) returns (t: ThreadId)
    ensures t !in used
  {
    var bound := ThreadBound(used);
    t := bound + 1;
  }

  lemma ThreadBound(used: set<ThreadId>) returns (bound: ThreadId)
    ensures forall u :: u in used ==> u <= bound
  {
    if used == {} {
      bound := 0;
    } else {
      var t :| t in used;
      var rest := ThreadBound(used - {t});
      bound := if rest < t then t else rest;
      assert used == (used - {t}) + {t};
    }
  }

  lemma UnusedName(used: set<SessionId>) returns (name: SessionId)
    ensures name !in used
  {
    var bound := NameBound(used);
    name := seq(bound + 1, _ => 'x');
  }

  lemma NameBound(used: set<SessionId>) returns (bound: nat)
    ensures forall u :: u in used ==> |u| <= bound
  {
    if used == {} {
      bound := 0;
    } else {
      var t :| t in used;
      var rest := NameBound(used - {t});
      bound := if rest < |t| then |t| else rest;
    }
  }

  class ServerLink {
    var sys: System
    /** The server when this link was made, and every event since. */
    ghost const start: System
    ghost var events: seq<Event>
    /** Every command and request sent through it. */
    ghost var calls: seq<Traces.Act>

    ghost predicate Valid()
      reads this
    {
      Running(None)
    }

    /** The log leads to the present state, and only the command of thread `mine` is in progress. */
    ghost predicate Running(mine: Option<ThreadId>)
      reads this
    {
      Inv(sys) && Quiescent(sys, mine) && Inv(start) && Run(start, events) == Some(sys)
    }

    ghost function Here(): Mark
      reads this
    {
      Mark(sys, events)
    }

    /** Nothing recorded at `origin` is lost, and no abort came since; only request `number` of `asker` was sent. */
    ghost predicate Follows(origin: Mark, asker: Option<SessionId>, number: nat)
      reads this
    {
      Grown(origin.sys, sys, asker, number) && GoesOn(origin.events, events)
    }

    /** The trial is the one of `origin`, unless a delivery failure or a shutdown came since. */
    ghost predicate SameTrial(origin: Mark)
      reads this
    {
      sys.rt.trial == origin.sys.rt.trial || Disturbed(events, |origin.events|)
    }

    constructor (sys: System)
      requires Inv(sys) && Quiescent(sys, None)
      ensures Valid() && this.sys == sys && start == sys && events == [] && calls == []
    {
      this.sys, start, events, calls := sys, sys, [], [];
    }

    /** A stretch of a run starts. */
    lemma Begins()
      requires Inv(sys)
      ensures Follows(Here(), None, 0) && SameTrial(Here()) && Grown(sys, sys, None, 0) && Keeps(sys, sys)
    {
      GrownSelf(sys);
      hide Inv, Grown;
    }

    lemma BeginsAsking(id: SessionId, number: nat)
      requires Inv(sys)
      ensures Follows(Here(), Some(id), number)
    {
      GrownSelf(sys);
      GrownMore(sys, sys, Some(id), number);
      hide Inv, Grown;
    }

    method NewThread() returns (t: ThreadId)
      ensures !sys.At(t)
    {
      ghost var unused := UnusedThread(sys.threads.Keys);
      assert !sys.At(unused);
      t :| !sys.At(t);
    }

    /** One step of the command this link is running. */
    method Step(e: Event, mine: Option<ThreadId>, ghost origin: Mark, ghost asker: Option<SessionId>, ghost number: nat)
      requires Running(mine) && Enabled(sys, e) && Own(e, mine) && Requests(e, asker, number)
      requires !AddsNoRequest(e) ==> e.first.req.session in sys.rt.leases
      modifies this`sys, this`events
      ensures sys == Apply(old(sys), e) && events == old(events) + [e] && Running(mine)
      ensures Grown(old(sys), sys, asker, number)
      ensures !IsAbort(e) && old(Follows(origin, asker, number)) ==> Follows(origin, asker, number)
      ensures !e.BeginEnter? && !EndingStep(e) && old(Follows(origin, asker, number) && SameTrial(origin)) ==>
        SameTrial(origin)
      ensures !e.BeginEnter? ==> sys.rt.trial == old(sys).rt.trial || (EndingStep(e) && sys.rt.trial.None?)
      ensures !e.BeginEnter? ==> sys.rt.audit.directories == old(sys).rt.audit.directories
      ensures !e.PrepareDone? ==> SamePolicy(old(sys), sys)
      ensures !Up(old(sys).rt) ==> !Up(sys.rt)
      ensures !e.BeginEnter? && !e.OpenCall? && Keeps(origin.sys, old(sys)) ==> Keeps(origin.sys, sys)
      ensures !e.OpenCall? ==> sys.rt.leases.Keys == old(sys).rt.leases.Keys
    {
      hide Apply, Enabled, Grown, Inv, Quiescent, Run, Keeps, SamePolicy, Up, Disturbed, NoAbort, Own, Requests;
      OwnEffect(sys, e, mine, asker, number);
      StepFields(sys, e);
      if Follows(origin, asker, number) {
        GrownTrans(origin.sys, sys, Apply(sys, e), asker, number);
      }
      if !e.BeginEnter? && !e.OpenCall? && Keeps(origin.sys, sys) {
        KeepsTrans(origin.sys, sys, Apply(sys, e));
      }
      RunMore(start, events, e);
      LogGrows(origin.events, events, e);
      events := events + [e];
      sys := Apply(sys, e);
    }

    /** What others do meanwhile. */
    method Around(mine: Option<ThreadId>, ghost origin: Mark, ghost asker: Option<SessionId>, ghost number: nat)
      requires Running(mine) && Follows(origin, asker, number)
      requires mine.Some? ==> sys.At(mine.value)
      modifies this`sys, this`events
      ensures Running(mine) && Follows(origin, asker, number)
      ensures old(SameTrial(origin)) ==> SameTrial(origin)
      ensures old(events) <= events
      ensures Keeps(origin.sys, old(sys)) ==> Keeps(origin.sys, sys)
      ensures Grown(old(sys), sys, None, 0) && Calm(old(sys), sys) && SamePolicy(old(sys), sys)
      ensures mine.Some? ==> sys.At(mine.value) && sys.threads[mine.value] == old(sys).threads[mine.value]
      ensures mine.Some? && HoldsLock(sys.threads[mine.value]) ==> sys.lock == mine
    {
      hide Apply, Grown, Inv, Quiescent, Run, Calm, Disturbed, NoAbort;
      GrownSelf(sys);
      CalmSelf(sys);
      var n: nat := *;
      while n > 0
        invariant Running(mine) && Follows(origin, asker, number)
        invariant old(SameTrial(origin)) ==> SameTrial(origin)
        invariant old(events) <= events
        invariant Grown(old(sys), sys, None, 0) && Calm(old(sys), sys)
        invariant mine.Some? ==> sys.At(mine.value) && sys.threads[mine.value] == old(sys).threads[mine.value]
      {
        var e: Event := *;
        if Foreign(sys, e, mine) {
          ForeignStep(sys, e, mine, origin.sys, asker, number);
          ForeignStep(sys, e, mine, old(sys), None, 0);
          CalmTrans(old(sys), sys, Apply(sys, e));
          RunMore(start, events, e);
          LogGrows(origin.events, events, e);
          events := events + [e];
          sys := Apply(sys, e);
        }
        n := n - 1;
      }
      CalmKeeps(origin.sys, old(sys), sys);
      if mine.Some? && HoldsLock(sys.threads[mine.value]) {
        OwnerHolds(sys, mine.value);
      }
    }

    /** A command that failed inside the execution lock fails the runtime and lets go. */
    method Break(t: ThreadId, ghost origin: Mark)
      requires Running(Some(t)) && sys.At(t) && (sys.threads[t].PrepareBroken? || sys.threads[t].BeginBroken?)
      requires Follows(origin, None, 0)
      modifies this`sys, this`events
      ensures Running(Some(t)) && !sys.At(t) && Follows(origin, None, 0)
      ensures old(SameTrial(origin)) ==> SameTrial(origin)
      ensures Keeps(origin.sys, old(sys)) ==> Keeps(origin.sys, sys)
      ensures SamePolicy(old(sys), sys) && (sys.rt.trial == old(sys).rt.trial || sys.rt.trial.None?)
    {
      hide Apply, Enabled, Grown, Follows, SameTrial, Inv, Quiescent, Run, HoldsLock, Keeps;
      OwnStep(sys, FailStep(t));
      Step(FailStep(t), Some(t), origin, None, 0);
      Around(Some(t), origin, None, 0);
      OwnStep(sys, Release(t));
      Step(Release(t), Some(t), origin, None, 0);
    }

    /** prepare_skill once the policy is loaded: the lock is released, then the new generation is published. */
    method Commit(t: ThreadId, skill: Skill, ghost origin: Mark) returns (prepared: bool)
      requires Running(Some(t)) && sys.At(t) && sys.threads[t] == PreparePrepared(skill)
      requires Follows(origin, None, 0)
      modifies this`sys, this`events
      ensures Running(Some(t)) && !sys.At(t) && Follows(origin, None, 0)
      ensures old(SameTrial(origin)) ==> SameTrial(origin)
      ensures Keeps(origin.sys, old(sys)) ==> Keeps(origin.sys, sys)
      ensures prepared ==> sys.rt.activeSkill == Some(skill)
    {
      hide Apply, Enabled, Grown, Follows, SameTrial, Inv, Quiescent, Run, HoldsLock, Keeps, Calm;
      OwnStep(sys, Release(t));
      Step(Release(t), Some(t), origin, None, 0);
      Around(Some(t), origin, None, 0);
      prepared := PrepareCommit(sys.rt, skill).1.Returned?;
      OwnStep(sys, PrepareDone(t));
      Step(PrepareDone(t), Some(t), origin, None, 0);
    }

    /** prepare_skill from the moment it holds the execution lock. */
    method Load(t: ThreadId, skill: Skill, ghost origin: Mark) returns (prepared: bool)
      requires Running(Some(t)) && sys.At(t) && sys.threads[t] == PrepareLocked(skill)
      requires Follows(origin, None, 0)
      modifies this`sys, this`events
      ensures Running(Some(t)) && !sys.At(t) && Follows(origin, None, 0)
      ensures old(SameTrial(origin)) ==> SameTrial(origin)
      ensures Keeps(origin.sys, old(sys)) ==> Keeps(origin.sys, sys)
      ensures prepared ==> sys.rt.activeSkill == Some(skill)
    {
      hide Apply, Enabled, Grown, Follows, SameTrial, Inv, Quiescent, Run, HoldsLock, Keeps, Calm;
      Around(Some(t), origin, None, 0);
      var loaded: bool, after: Backend := *, *;
      OwnStep(sys, PrepareBackend(t, loaded, after));
      Step(PrepareBackend(t, loaded, after), Some(t), origin, None, 0);
      Around(Some(t), origin, None, 0);
      if loaded {
        prepared := Commit(t, skill, origin);
      } else {
        Break(t, origin);
        prepared := false;
      }
    }

    /** prepare_skill waiting for the execution lock. */
    method AwaitLoad(t: ThreadId, skill: Skill, ghost origin: Mark) returns (prepared: bool)
      requires Running(Some(t)) && sys.At(t) && sys.threads[t] == PrepareLoading(skill)
      requires Follows(origin, None, 0)
      modifies this`sys, this`events
      ensures Running(Some(t)) && !sys.At(t) && Follows(origin, None, 0)
      ensures old(SameTrial(origin)) ==> SameTrial(origin)
      ensures Keeps(origin.sys, old(sys)) ==> Keeps(origin.sys, sys)
      ensures prepared ==> sys.rt.activeSkill == Some(skill)
    {
      hide Apply, Enabled, Grown, Follows, SameTrial, Inv, Quiescent, Run, HoldsLock, Keeps, Calm;
      Around(Some(t), origin, None, 0);
      var inTime: bool := *;
      if !inTime || sys.lock.Some? {
        OwnStep(sys, Busy(t));
        Step(Busy(t), Some(t), origin, None, 0);
        prepared := false;
      } else {
        OwnStep(sys, Acquire(t));
        Step(Acquire(t), Some(t), origin, None, 0);
        prepared := Load(t, skill, origin);
      }
    }

    /** prepare-skill. */
    method PrepareSkill(skill: Skill) returns (r: Outcome<()>)
      requires Valid()
      modifies this
      ensures calls == old(calls) + [Traces.Remote(Traces.PrepareSkill)]
      ensures Valid() && Follows(old(Here()), None, 0) && Keeps(old(sys), sys) && SameTrial(old(Here()))
      ensures r.Returned? ==> sys.rt.activeSkill == Some(skill)
      // while a trial is live, or once the server is down, the command is refused and prepares nothing
      ensures old(sys.rt.trial.Some? || !Up(sys.rt)) ==> r.Raised? && Calm(old(sys), sys)
    {
      hide Apply, Enabled, Grown, Follows, SameTrial, Inv, Quiescent, Run, HoldsLock, Keeps, Calm;
      calls := calls + [Traces.Remote(Traces.PrepareSkill)];
      ghost var origin := Here();
      Begins();
      Around(None, origin, None, 0);
      var reached: bool := *;
      if !reached {
        return Raised(ControlUnavailable);
      }
      var t := NewThread();
      PrepareStarts(sys, t, skill);
      if sys.rt.trial.Some? || !Up(sys.rt) {
        PrepareRefuses(sys, t, skill);
      }
      if old(sys.rt.trial.Some? || !Up(sys.rt)) {
        CalmRefuses(old(sys), sys, Apply(sys, PrepareCall(t, skill)));
      }
      Idle(sys, t);
      Step(PrepareCall(t, skill), Some(t), origin, None, 0);
      var prepared := false;
      if sys.At(t) {
        prepared := AwaitLoad(t, skill, origin);
      }
      EndOfCommand(sys, t);
      ghost var m := sys;
      Around(None, origin, None, 0);
      if old(sys.rt.trial.Some? || !Up(sys.rt)) {
        CalmTrans(old(sys), m, sys);
      }
      var answered: bool := *;
      return if prepared && answered then Returned(()) else Raised(ServerFailed);
    }

    /** begin_trial from the moment it holds the execution lock. */
    method Enter(t: ThreadId, trial: TrialId, seed: int, ghost origin: Mark) returns (begun: bool)
      requires Running(Some(t)) && sys.At(t) && sys.threads[t] == BeginLocked(trial, seed)
      requires Follows(origin, None, 0)
      modifies this`sys, this`events
      ensures Running(Some(t)) && !sys.At(t)
      ensures Follows(origin, None, 0) && SamePolicy(old(sys), sys)
      ensures sys.rt.trial in {None, old(sys).rt.trial, Some(trial)}
      ensures begun ==> TrialBegun(sys, trial, seed)
    {
      hide Apply, Enabled, Grown, Follows, SameTrial, Inv, Quiescent, Run, HoldsLock, TrialBegun, NoLeaseOf,
        RuntimeSpec.BeginTrial;
      Around(Some(t), origin, None, 0);
      var io: BeginIos := *;
      begun := RuntimeSpec.BeginTrial(sys.rt, trial, seed, io).1.Begun?;
      BeginOpens(sys, t, io);
      Step(BeginEnter(t, io), Some(t), origin, None, 0);
      ghost var m := sys;
      Around(Some(t), origin, None, 0);
      if begun {
        TrialBegunStays(m, sys, trial, seed);
      }
      if sys.threads[t].BeginBroken? {
        Break(t, origin);
      } else {
        LetGo(t, trial, seed, origin);
      }
    }

    /** The release after begin_trial's critical section. */
    method LetGo(t: ThreadId, trial: TrialId, seed: int, ghost origin: Mark)
      requires Running(Some(t)) && sys.At(t) && sys.threads[t] == Releasing && Follows(origin, None, 0)
      modifies this`sys, this`events
      ensures Running(Some(t)) && !sys.At(t) && Follows(origin, None, 0) && SamePolicy(old(sys), sys)
      ensures sys.rt.trial == old(sys).rt.trial
      ensures old(TrialBegun(sys, trial, seed)) ==> TrialBegun(sys, trial, seed)
    {
      hide Apply, Enabled, Grown, Follows, SameTrial, Inv, Quiescent, Run, HoldsLock, TrialBegun, Keeps;
      OwnStep(sys, Release(t));
      Step(Release(t), Some(t), origin, None, 0);
      if old(TrialBegun(sys, trial, seed)) {
        TrialBegunStays(old(sys), sys, trial, seed);
      }
    }

    /** begin_trial waiting for the execution lock. */
    method AwaitBegin(t: ThreadId, trial: TrialId, seed: int, ghost origin: Mark) returns (begun: bool)
      requires Running(Some(t)) && sys.At(t) && sys.threads[t] == BeginWaiting(trial, seed)
      requires Follows(origin, None, 0)
      modifies this`sys, this`events
      ensures Running(Some(t)) && !sys.At(t)
      ensures Follows(origin, None, 0) && SamePolicy(old(sys), sys)
      ensures sys.rt.trial in {None, old(sys).rt.trial, Some(trial)}
      ensures begun ==> TrialBegun(sys, trial, seed)
    {
      hide Apply, Enabled, Grown, Follows, SameTrial, Inv, Quiescent, Run, HoldsLock, TrialBegun;
      Around(Some(t), origin, None, 0);
      var inTime: bool := *;
      if !inTime || sys.lock.Some? {
        OwnStep(sys, Busy(t));
        Step(Busy(t), Some(t), origin, None, 0);
        begun := false;
      } else {
        OwnStep(sys, Acquire(t));
        Step(Acquire(t), Some(t), origin, None, 0);
        begun := Enter(t, trial, seed, origin);
      }
    }

    /** begin-trial. */
    method BeginTrial(trial: TrialId, seed: int) returns (r: Outcome<()>)
      requires Valid()
      modifies this
      ensures calls == old(calls) + [Traces.Remote(Traces.BeginTrial)]
      ensures Valid() && Follows(old(Here()), None, 0) && SamePolicy(old(sys), sys)
      ensures sys.rt.trial in {None, old(sys).rt.trial, Some(trial)}
      ensures r.Returned? ==> TrialBegun(sys, trial, seed)
    {
      hide Apply, Enabled, Grown, Follows, SameTrial, Inv, Quiescent, Run, HoldsLock;
      calls := calls + [Traces.Remote(Traces.BeginTrial)];
      ghost var origin := Here();
      Begins();
      Around(None, origin, None, 0);
      var reached: bool := *;
      if !reached {
        return Raised(ControlUnavailable);
      }
      var t := NewThread();
      Idle(sys, t);
      CallStarts(sys, t, BeginWaiting(trial, seed));
      Step(Call(t, BeginWaiting(trial, seed)), Some(t), origin, None, 0);
      var begun := AwaitBegin(t, trial, seed, origin);
      EndOfCommand(sys, t);
      ghost var m := sys;
      Around(None, origin, None, 0);
      if begun {
        TrialBegunStays(m, sys, trial, seed);
      }
      var answered: bool := *;
      return if begun && answered then Returned(()) else Raised(ServerFailed);
    }

    /** open-session. `made` is the session it opened, whether or not the reply came back. */
    method OpenSession() returns (r: Outcome<Grant>, ghost made: Option<SessionId>)
      requires Valid()
      modifies this
      ensures calls == old(calls) + [Traces.Remote(Traces.OpenSession)]
      ensures Valid() && Follows(old(Here()), None, 0) && SamePolicy(old(sys), sys)
      ensures sys.rt.trial == old(sys).rt.trial || sys.rt.trial.None?
      ensures made.None? ==> sys.rt.leases.Keys == old(sys).rt.leases.Keys
      ensures made.Some? ==> made.value !in old(sys).rt.leases && SessionOpened(old(sys), sys, made.value)
      ensures r.Returned? ==> made == Some(r.value.session) && IsLease(sys, r.value)
    {
      hide Apply, Enabled, Grown, Follows, SameTrial, Inv, Quiescent, Run, HoldsLock;
      calls := calls + [Traces.Remote(Traces.OpenSession)];
      ghost var origin := Here();
      Begins();
      Around(None, origin, None, 0);
      made := None;
      var reached: bool := *;
      if !reached {
        return Raised(ControlUnavailable), made;
      }
      ghost var unused := UnusedName(sys.rt.leases.Keys);
      var id: SessionId :| id !in sys.rt.leases;
      assert "t" != "";
      var token: string :| token != "";
      var lease := RuntimeSpec.OpenSession(sys.rt, id, token).1;
      ghost var m := sys;
      OpenMakes(sys, id, token);
      Step(OpenCall(id, token), None, origin, None, 0);
      if lease.Raised? {
        Around(None, origin, None, 0);
        return Raised(lease.code), made;
      }
      made := Some(id);
      ghost var n := sys;
      Around(None, origin, None, 0);
      SessionOpenedStays(old(sys), n, sys, id);
      var grant := Grant(id, token, lease.value.skill, lease.value.generation, lease.value.trial);
      LeaseStays(n, sys, grant);
      var answered: bool := *;
      return if answered then Returned(grant) else Raised(ServerFailed), made;
    }

    /** close-session. */
    method CloseSession(id: SessionId) returns (r: Outcome<()>)
      requires Valid()
      modifies this
      ensures calls == old(calls) + [Traces.Remote(Traces.CloseSession)]
      ensures Valid() && Follows(old(Here()), None, 0) && SamePolicy(old(sys), sys) && Keeps(old(sys), sys)
      ensures SameTrial(old(Here())) && (sys.rt.trial == old(sys).rt.trial || !Up(sys.rt))
      ensures !Up(old(sys).rt) ==> !Up(sys.rt)
      ensures r.Returned? ==> sys.rt.session.None?
    {
      hide Apply, Enabled, Grown, Follows, SameTrial, Inv, Quiescent, Run, HoldsLock, Keeps;
      calls := calls + [Traces.Remote(Traces.CloseSession)];
      ghost var origin := Here();
      Begins();
      Around(None, origin, None, 0);
      var reached: bool := *;
      if !reached {
        return Raised(ControlUnavailable);
      }
      var closed := RuntimeSpec.CloseSession(sys.rt, id).1;
      CloseSessionCloses(sys, id);
      Step(CloseSessionCall(id), None, origin, None, 0);
      Around(None, origin, None, 0);
      var answered: bool := *;
      return if closed.Raised? || answered then closed else Raised(ServerFailed);
    }

    /** end-trial. */
    method EndTrial() returns (r: Outcome<Manifest>)
      requires Valid()
      modifies this
      ensures calls == old(calls) + [Traces.Remote(Traces.EndTrial)]
      ensures Valid() && Follows(old(Here()), None, 0) && SamePolicy(old(sys), sys) && Keeps(old(sys), sys)
      ensures r.Returned? ==>
        old(sys).rt.trial == Some(r.value.trial) && sys.rt.trial.None? && TrialClosed(sys, r.value)
    {
      hide Apply, Enabled, Grown, Follows, SameTrial, Inv, Quiescent, Run, HoldsLock;
      calls := calls + [Traces.Remote(Traces.EndTrial)];
      ghost var origin := Here();
      Begins();
      Around(None, origin, None, 0);
      var reached: bool := *;
      if !reached {
        return Raised(ControlUnavailable);
      }
      var summaryWritten: bool, manifestWritten: bool := *, *;
      var ended := RuntimeSpec.EndTrial(sys.rt, summaryWritten, manifestWritten).1;
      EndCloses(sys, summaryWritten, manifestWritten);
      Step(EndCall(summaryWritten, manifestWritten), None, origin, None, 0);
      ghost var m := sys;
      Around(None, origin, None, 0);
      if ended.Returned? {
        TrialClosedStays(m, sys, ended.value);
      }
      var answered: bool := *;
      return if ended.Raised? || answered then ended else Raised(ServerFailed);
    }

    /** abort from the moment it holds the execution lock. */
    method EnterAbort(t: ThreadId, ghost origin: Mark) returns (written: bool, ghost waited: seq<Event>)
      requires Running(Some(t)) && sys.At(t) && sys.threads[t] == AbortLocked && Follows(origin, None, 0)
      modifies this`sys, this`events
      ensures Running(None) && Grown(old(sys), sys, None, 0) && SamePolicy(old(sys), sys)
      ensures Keeps(origin.sys, old(sys)) ==> Keeps(origin.sys, sys)
      ensures GoesOn(origin.events, waited) && GoesOn(waited + [AbortEnter(t, written)], events)
      ensures sys.rt.trial.None? || (!written && !Up(sys.rt))
    {
      hide Apply, Enabled, Grown, NoAbort, SameTrial, Inv, Quiescent, Run, HoldsLock, Keeps;
      ghost var s := sys;
      Around(Some(t), origin, None, 0);
      written := *;
      AbortEnds(sys, t, written);
      waited := events;
      ghost var m := sys;
      Step(AbortEnter(t, written), Some(t), origin, None, 0);
      GrownTrans(s, m, sys, None, 0);
      ghost var entered := Here();
      Begins();
      Around(Some(t), entered, None, 0);
      OwnStep(sys, Release(t));
      Step(Release(t), Some(t), entered, None, 0);
      EndOfCommand(sys, t);
      GrownTrans(s, entered.sys, sys, None, 0);
      if Keeps(origin.sys, s) {
        KeepsTrans(origin.sys, entered.sys, sys);
      }
    }

    /** abort, which reaches the server if `reaches`. Its fate is what the events it added say. */
    method Abort(reaches: bool) returns (r: Outcome<()>)
      requires Valid()
      modifies this
      ensures calls == old(calls) + [Traces.Remote(Traces.AbortTrial)]
      ensures Valid() && old(events) <= events && Grown(old(sys), sys, None, 0)
      ensures SamePolicy(old(sys), sys) && Keeps(old(sys), sys)
      ensures FateOf(events, |old(events)|).reached <==> reaches
      // an abort that lands leaves no trial; one that reaches the server leaves no trial or a server that is down
      ensures FateOf(events, |old(events)|).Landed() ==> sys.rt.trial.None?
      ensures FateOf(events, |old(events)|).reached ==> sys.rt.trial.None? || !Up(sys.rt)
      ensures r.Returned? ==> FateOf(events, |old(events)|).Landed()
    {
      hide Apply, Enabled, Grown, NoAbort, SameTrial, Inv, Quiescent, Run, HoldsLock, FateOf, Keeps;
      calls := calls + [Traces.Remote(Traces.AbortTrial)];
      ghost var origin := Here();
      Begins();
      Around(None, origin, None, 0);
      if !reaches {
        NotReached(origin.events, events);
        return Raised(ControlUnavailable);
      }
      var t := NewThread();
      Idle(sys, t);
      CallStarts(sys, t, AbortWaiting);
      ghost var before, asked := events, sys;
      Step(Call(t, AbortWaiting), Some(t), origin, None, 0);
      GrownTrans(origin.sys, asked, sys, None, 0);
      ghost var called := Here();
      Begins();
      var entered, written;
      ghost var waited;
      entered, written, waited := AwaitAbort(t, called);
      KeepsTrans(origin.sys, called.sys, sys);
      GrownTrans(origin.sys, called.sys, sys, None, 0);
      ghost var entry := if entered then [AbortEnter(t, written)] else [];
      AbortLogged(origin.events, before, Call(t, AbortWaiting), waited, entry, events);
      var answered: bool := *;
      return if entered && written && answered then Returned(()) else Raised(ServerFailed);
    }

    /** The wait of an abort for the execution lock, and what comes after it. */
    method AwaitAbort(t: ThreadId, ghost called: Mark) returns (entered: bool, written: bool, ghost waited: seq<Event>)
      requires Running(Some(t)) && sys.At(t) && sys.threads[t] == AbortWaiting && called == Here()
      modifies this`sys, this`events
      ensures Running(None) && Grown(old(sys), sys, None, 0) && SamePolicy(old(sys), sys) && Keeps(old(sys), sys)
      ensures GoesOn(called.events, waited)
      ensures if entered then GoesOn(waited + [AbortEnter(t, written)], events) else waited == events
      ensures sys.rt.trial.None? || (!(entered && written) && !Up(sys.rt))
    {
      hide Apply, Enabled, Grown, NoAbort, SameTrial, Inv, Quiescent, Run, HoldsLock, Keeps;
      written := false;
      Begins();
      Around(Some(t), called, None, 0);
      entered := *;
      if !entered || sys.lock.Some? {
        entered := false;
        AbortGivesUp(sys, t);
        Step(Busy(t), Some(t), called, None, 0);
        EndOfCommand(sys, t);
        Around(None, called, None, 0);
        waited := events;
      } else {
        OwnStep(sys, Acquire(t));
        Step(Acquire(t), Some(t), called, None, 0);
        ghost var m := sys;
        written, waited := EnterAbort(t, called);
        GrownTrans(called.sys, m, sys, None, 0);
      }
    }

    /** infer over the transport: whatever response of the server comes back is validated; the call may also give up,
        with the request still under way. */
    method Infer(req: Request) returns (r: Outcome<Response>)
      requires Valid() && req.session in sys.rt.leases
      modifies this
      ensures calls == old(calls) + [Traces.Infer]
      ensures Valid() && Follows(old(Here()), Some(req.session), req.sequence) && SamePolicy(old(sys), sys)
      ensures Keeps(old(sys), sys)
      ensures r.Returned? ==> r.value in sys.responses && ResponseValidation.Validate(req, r.value).Returned?
      ensures r.Raised? ==> !BudgetFault(r.code)
    {
      hide Apply, Enabled, Grown, Follows, SameTrial, Inv, Quiescent, Run, HoldsLock;
      calls := calls + [Traces.Infer];
      ghost var origin := Here();
      Begins();
      BeginsAsking(req.session, req.sequence);
      Around(None, origin, Some(req.session), req.sequence);
      var reached: bool := *;
      if !reached {
        return Raised(ControlUnavailable);
      }
      var t := NewThread();
      Idle(sys, t);
      CallStarts(sys, t, InferWaiting(req));
      Step(Call(t, InferWaiting(req)), Some(t), origin, Some(req.session), req.sequence);
      RequestIsOut(sys, t);
      Around(None, origin, Some(req.session), req.sequence);
      var answered: bool, i: nat := *, *;
      if !answered || i >= |sys.responses| {
        return Raised(ServerFailed);
      }
      return ResponseValidation.Validate(req, sys.responses[i]);
    }
  }

  lemma QuiescentAfter(s: System, e: Event, mine: Option<ThreadId>)
    requires Enabled(s, e)
    requires forall t :: Apply(s, e).At(t) && Some(t) != mine ==> InferSide(Apply(s, e).threads[t])
    requires forall t :: Apply(s, e).At(t) && InferCall(Apply(s, e).threads[t]) ==>
      Apply(s, e).threads[t].req.session in Apply(s, e).rt.leases
    ensures Quiescent(Apply(s, e), mine)
  {
    hide Apply, Enabled;
  }

  lemma LogGrows(earlier: seq<Event>, events: seq<Event>, e: Event)
    ensures GoesOn(earlier, events) && !IsAbort(e) ==> GoesOn(earlier, events + [e])
    ensures earlier <= events && Disturbed(events, |earlier|) ==> Disturbed(events + [e], |earlier|)
    ensures earlier <= events && Disturbs(e) ==> Disturbed(events + [e], |earlier|)
  {
    var more := events + [e];
    assert more[|events|] == e;
    if earlier <= events && Disturbed(events, |earlier|) {
      var i :| |earlier| <= i < |events| && Disturbs(events[i]);
      assert Disturbs(more[i]);
    }
  }

  lemma CalmSelf(s: System)
    ensures Calm(s, s)
  {
  }

  /** What refuses prepare-skill goes on refusing it. */
  lemma CalmRefuses(s: System, m: System, n: System)
    requires Calm(s, m) && (s.rt.trial.Some? || !Up(s.rt))
    ensures m.rt.trial.Some? || !Up(m.rt)
    ensures n.rt == m.rt ==> Calm(s, n)
  {
  }

  lemma CalmKeeps(s: System, m: System, n: System)
    requires Calm(m, n)
    ensures (Keeps(s, m) ==> Keeps(s, n)) && SamePolicy(m, n)
  {
  }

  lemma KeepsTrans(s: System, m: System, n: System)
    requires Keeps(s, m) && Keeps(m, n)
    ensures Keeps(s, n)
  {
  }

  lemma CalmTrans(s: System, m: System, n: System)
    requires Calm(s, m) && Calm(m, n)
    ensures Calm(s, n)
  {
  }

  lemma OwnerHolds(s: System, t: ThreadId)
    requires Inv(s) && s.At(t) && HoldsLock(s.threads[t])
    ensures s.lock == Some(t)
  {
    hide LogInv, WorkInv, LoadingInv;
  }

  lemma OwnEffect(s: System, e: Event, mine: Option<ThreadId>, asker: Option<SessionId>, number: nat)
    requires Inv(s) && Quiescent(s, mine) && Enabled(s, e) && Own(e, mine) && Requests(e, asker, number)
    requires !AddsNoRequest(e) ==> e.first.req.session in s.rt.leases
    ensures var n := Apply(s, e); Inv(n) && Quiescent(n, mine) && Grown(s, n, asker, number)
  {
    hide Apply, Enabled, Grown, Inv, Quiescent;
    GrownStep(s, e, asker, number);
    OwnThreads(s, e, mine);
    SessionsExist(s, e, mine);
    QuiescentAfter(s, e, mine);
    InvKept(s, e);
  }

  lemma StepFields(s: System, e: Event)
    requires Inv(s) && Enabled(s, e)
    ensures var n := Apply(s, e);
      && (!e.BeginEnter? ==> n.rt.trial == s.rt.trial || (EndingStep(e) && n.rt.trial.None?))
      && (!e.BeginEnter? ==> n.rt.audit.directories == s.rt.audit.directories)
      && (!e.PrepareDone? ==> SamePolicy(s, n))
      && (!Up(s.rt) ==> !Up(n.rt))
      && (!e.BeginEnter? && !e.OpenCall? ==> Keeps(s, n))
      && (!e.OpenCall? ==> n.rt.leases.Keys == s.rt.leases.Keys)
  {
    hide Apply, Enabled, LockInv, FlightCount, SessionInv, TrialInv, ReadyInv, PrepareInv, LogInv, ManifestInv;
    InvHasManifests(s);
    if !Up(s.rt) {
      DownStaysDown(s, e);
    }
    if !e.BeginEnter? {
      OnlyBeginOpensTrials(s, e);
    }
    if !e.PrepareDone? {
      OnlyPrepareChangesPolicy(s, e);
    }
    LeasesStay(s, e);
  }

  lemma ForeignStep(s: System, e: Event, mine: Option<ThreadId>, origin: System, asker: Option<SessionId>, number: nat)
    requires Inv(s) && Quiescent(s, mine) && Foreign(s, e, mine) && Grown(origin, s, asker, number)
    ensures var n := Apply(s, e);
      && Inv(n) && Quiescent(n, mine) && Grown(origin, n, asker, number) && Calm(s, n)
      && (mine.Some? && s.At(mine.value) ==> n.At(mine.value) && n.threads[mine.value] == s.threads[mine.value])
      && !IsAbort(e) && (Disturbs(e) || n.rt.trial == s.rt.trial)
  {
    ForeignNeverAborts(s, e, mine);
    hide Apply, Grown, Calm, Quiescent, LogInv, LockInv, WorkInv, LoadingInv, SessionInv, TrialInv, ReadyInv,
      PrepareInv;
    ForeignIsCalm(s, e, mine);
    ForeignThreads(s, e, mine);
    SessionsExist(s, e, mine);
    QuiescentAfter(s, e, mine);
    GrownStep(s, e, asker, number);
    GrownTrans(origin, s, Apply(s, e), asker, number);
    InvKept(s, e);
  }

  lemma ForeignNeverAborts(s: System, e: Event, mine: Option<ThreadId>)
    requires Quiescent(s, mine) && Foreign(s, e, mine)
    ensures !IsAbort(e)
  {
    var t := e.Of();
    assert t.Some? && t != mine ==> InferSide(s.threads[t.value]);
  }

  /** No trial and no directory is new, and no session. */
  ghost predicate Keeps(s: System, n: System) {
    && (n.rt.trial == s.rt.trial || n.rt.trial.None?)
    && n.rt.audit.directories == s.rt.audit.directories && n.rt.leases.Keys == s.rt.leases.Keys
  }

  lemma Idle(s: System, t: ThreadId)
    requires Quiescent(s, None)
    ensures Quiescent(s, Some(t))
  {
  }

  lemma PrepareStarts(s: System, t: ThreadId, skill: Skill)
    requires Inv(s) && !s.At(t)
    ensures Enabled(s, PrepareCall(t, skill))
    ensures var n := Apply(s, PrepareCall(t, skill)); n.At(t) ==> n.threads[t] == PrepareLoading(skill)
  {
    var e := PrepareCall(t, skill);
    PrepareCallKeepsControl(s, e);
    if Apply(s, e).At(t) {
      NeverDraining(Apply(s, e), t);
    }
  }

  lemma PrepareRefuses(s: System, t: ThreadId, skill: Skill)
    requires Enabled(s, PrepareCall(t, skill)) && (s.rt.trial.Some? || !Up(s.rt))
    ensures Apply(s, PrepareCall(t, skill)).rt == s.rt && !Apply(s, PrepareCall(t, skill)).At(t)
  {
  }

  /** Where the thread of a control command stands after its step. */
  lemma OwnStep(s: System, e: Event)
    requires Inv(s) && (e.Busy? || e.Acquire? || e.PrepareBackend? || e.FailStep? || e.Release? || e.PrepareDone?)
    requires s.At(e.t)
    requires match e
      case Busy(t) => Waiting(s.threads[t])
      case Acquire(t) => Waiting(s.threads[t]) && s.lock.None?
      case PrepareBackend(t, _, _) => s.threads[t].PrepareLocked?
      case FailStep(t) => s.threads[t].PrepareBroken? || s.threads[t].BeginBroken?
      case Release(t) => s.threads[t].Releasing? || s.threads[t].PreparePrepared?
      case PrepareDone(t) => s.threads[t].PrepareCommitting?
    ensures Enabled(s, e)
    ensures var n := Apply(s, e);
      match e
      case Busy(t) => !n.At(t)
      case Acquire(t) => n.At(t) && n.threads[t] == Locked(s.threads[t])
      case PrepareBackend(t, loaded, _) =>
        n.At(t) && n.threads[t] == if loaded then PreparePrepared(s.threads[t].skill) else PrepareBroken
      case FailStep(t) => n.At(t) && n.threads[t] == Releasing
      case Release(t) =>
        if s.threads[t].PreparePrepared? then n.At(t) && n.threads[t] == PrepareCommitting(s.threads[t].skill)
        else !n.At(t)
      case PrepareDone(t) => !n.At(t) && n.rt.activeSkill == Some(s.threads[t].skill)
  {
  }

  lemma CallStarts(s: System, t: ThreadId, first: Pc)
    requires !s.At(t) && (first.InferWaiting? || first.BeginWaiting? || first.AbortWaiting?)
    ensures Enabled(s, Call(t, first))
    ensures var n := Apply(s, Call(t, first)); n.At(t) && n.threads[t] == first
  {
  }

  /** close-session is always possible; when it is not refused no session is left. */
  lemma CloseSessionCloses(s: System, id: SessionId)
    ensures Enabled(s, CloseSessionCall(id))
    ensures RuntimeSpec.CloseSession(s.rt, id).1.Returned? ==> Apply(s, CloseSessionCall(id)).rt.session.None?
  {
  }

  lemma RequestIsOut(s: System, t: ThreadId)
    requires Quiescent(s, Some(t)) && s.At(t) && s.threads[t].InferWaiting?
    ensures Quiescent(s, None)
  {
  }

  // ----- begin-trial -----

  /** The trial's manifest was opened with this seed, for the policy that is live. */
  predicate Registered(s: System, trial: TrialId, seed: int) {
    var writes := s.rt.audit.WritesOf(trial);
    && |writes| > 0 && writes[0].seed == seed
    && Some(writes[0].skill) == s.rt.activeSkill && writes[0].generation == s.rt.generation
  }

  ghost predicate NoLeaseOf(s: System, trial: TrialId) {
    forall id :: id in s.rt.leases ==> s.rt.leases[id].trial != trial
  }

  /** The trial has begun and nobody has opened a session in it. */
  ghost predicate TrialBegun(s: System, trial: TrialId, seed: int) {
    Registered(s, trial, seed) && NoLeaseOf(s, trial)
  }

  lemma BeginOpens(s: System, t: ThreadId, io: BeginIos)
    requires Inv(s) && s.At(t) && s.threads[t].BeginLocked?
    ensures Enabled(s, BeginEnter(t, io))
    ensures var n := Apply(s, BeginEnter(t, io));
      var pc := s.threads[t];
      && n.At(t) && (n.threads[t] == Releasing || n.threads[t] == BeginBroken)
      && n.rt.trial in {s.rt.trial, Some(pc.trial)}
      && (RuntimeSpec.BeginTrial(s.rt, pc.trial, pc.seed, io).1.Begun? ==>
          n.threads[t] == Releasing && TrialBegun(n, pc.trial, pc.seed))
  {
    hide LogInv, WorkInv, LoadingInv, ControlInv, TrialBegun;
    var pc := s.threads[t];
    BeginEnterEffect(s, t, io);
    BeginRegisters(s, Apply(s, BeginEnter(t, io)), pc.trial, pc.seed, io);
  }

  lemma BeginEnterEffect(s: System, t: ThreadId, io: BeginIos)
    requires s.At(t) && s.threads[t].BeginLocked?
    ensures Enabled(s, BeginEnter(t, io))
    ensures var pc := s.threads[t];
      var (q, result) := RuntimeSpec.BeginTrial(s.rt, pc.trial, pc.seed, io);
      Apply(s, BeginEnter(t, io)) == s.With(t, q, if result.BeginRaised? then BeginBroken else Releasing)
  {
  }

  lemma BeginRegisters(s: System, n: System, trial: TrialId, seed: int, io: BeginIos)
    requires Inv(s) && n.rt == RuntimeSpec.BeginTrial(s.rt, trial, seed, io).0
    ensures n.rt.trial in {s.rt.trial, Some(trial)}
    ensures RuntimeSpec.BeginTrial(s.rt, trial, seed, io).1.Begun? ==> TrialBegun(n, trial, seed)
  {
    hide ControlInv, LoadingInv, WorkInv, RowInv, ManifestInv, NoiseInv, SequenceInv, AnswersInv;
    NewTrialHasNoLease(s, trial);
  }

  lemma NewTrialHasNoLease(s: System, trial: TrialId)
    requires RowInv(s.rt) && ManifestInv(s.rt.audit)
    ensures trial !in s.rt.audit.directories ==> NoLeaseOf(s, trial)
  {
  }

  lemma TrialBegunStays(s: System, n: System, trial: TrialId, seed: int)
    requires TrialBegun(s, trial, seed) && Grown(s, n, None, 0) && SamePolicy(s, n)
    requires n.rt.leases.Keys == s.rt.leases.Keys
    ensures TrialBegun(n, trial, seed)
  {
    hide Inv, Issued;
    assert s.rt.audit.WritesOf(trial) <= n.rt.audit.WritesOf(trial);
  }

  // ----- open-session -----

  /** `id` is a new session of the live trial and policy, and nothing was asked in it yet. */
  ghost predicate SessionOpened(s: System, n: System, id: SessionId) {
    && n.rt.leases.Keys == s.rt.leases.Keys + {id}
    && Issued(n, id, 0)
    && s.rt.trial == Some(n.rt.leases[id].trial) && s.rt.activeSkill == Some(n.rt.leases[id].skill)
    && s.rt.generation == n.rt.leases[id].generation
  }

  ghost predicate IsLease(s: System, grant: Grant) {
    && grant.session in s.rt.leases
    && s.rt.leases[grant.session].trial == grant.trial && s.rt.leases[grant.session].skill == grant.skill
    && s.rt.leases[grant.session].generation == grant.generation
  }

  lemma OpenMakes(s: System, id: SessionId, token: string)
    requires Inv(s) && Quiescent(s, None) && id !in s.rt.leases && token != ""
    ensures Enabled(s, OpenCall(id, token))
    ensures var n := Apply(s, OpenCall(id, token));
      match RuntimeSpec.OpenSession(s.rt, id, token).1
      case Raised(_) => n == s
      case Returned(lease) =>
        SessionOpened(s, n, id) && IsLease(n, Grant(id, token, lease.skill, lease.generation, lease.trial))
  {
    hide LogInv, WorkInv, LoadingInv, ControlInv, Quiescent;
    OpenCallEffect(s, id, token);
    var (q, opening) := RuntimeSpec.OpenSession(s.rt, id, token);
    if opening.Returned? {
      OpenGrants(s, s.(rt := q), id, token);
    }
  }

  lemma OpenCallEffect(s: System, id: SessionId, token: string)
    requires id !in s.rt.leases && token != ""
    ensures Enabled(s, OpenCall(id, token))
    ensures var (q, opening) := RuntimeSpec.OpenSession(s.rt, id, token);
      Apply(s, OpenCall(id, token)) == s.(rt := q) && (opening.Raised? ==> q == s.rt)
  {
  }

  lemma OpenGrants(s: System, n: System, id: SessionId, token: string)
    requires Inv(s) && Quiescent(s, None) && id !in s.rt.leases
    requires RuntimeSpec.OpenSession(s.rt, id, token).1.Returned?
    requires n == s.(rt := RuntimeSpec.OpenSession(s.rt, id, token).0)
    ensures var lease := RuntimeSpec.OpenSession(s.rt, id, token).1.value;
      SessionOpened(s, n, id) && IsLease(n, Grant(id, token, lease.skill, lease.generation, lease.trial))
  {
    hide Inv, Issued;
    NothingAsked(s, n, id);
  }

  lemma NothingAsked(s: System, n: System, id: SessionId)
    requires Inv(s) && Quiescent(s, None) && id !in s.rt.leases
    requires id in n.rt.leases && n.rt.audit == s.rt.audit && n.threads == s.threads
    ensures Issued(n, id, 0)
  {
    var rows := n.rt.audit.RowsOf(n.rt.leases[id].trial);
    assert RowInv(s.rt) && ManifestInv(s.rt.audit);
    hide LogInv, WorkInv, LoadingInv, ControlInv;
    NoRowsYet(rows, id);
  }

  lemma SessionOpenedStays(origin: System, s: System, n: System, id: SessionId)
    requires SessionOpened(origin, s, id) && Grown(s, n, None, 0) && n.rt.leases.Keys == s.rt.leases.Keys
    ensures SessionOpened(origin, n, id)
  {
    hide Inv;
  }

  lemma LeaseStays(s: System, n: System, grant: Grant)
    requires IsLease(s, grant) && Grown(s, n, None, 0)
    ensures IsLease(n, grant)
  {
    hide Inv, Issued;
  }

  // ----- end-trial and abort -----

  /** The trial's manifest on disk is final, and it is this one. */
  predicate TrialClosed(s: System, manifest: Manifest) {
    var writes := s.rt.audit.WritesOf(manifest.trial);
    |writes| == 2 && writes[1] == manifest && manifest.status == Committed
  }

  lemma EndCloses(s: System, summaryWritten: bool, manifestWritten: bool)
    requires Inv(s)
    ensures Enabled(s, EndCall(summaryWritten, manifestWritten))
    ensures var ended := RuntimeSpec.EndTrial(s.rt, summaryWritten, manifestWritten).1;
      ended.Returned? ==> EndedWith(s, Apply(s, EndCall(summaryWritten, manifestWritten)), ended.value)
  {
    hide LogInv, WorkInv, LoadingInv, ControlInv;
    EndCallEffect(s, summaryWritten, manifestWritten);
    var q := RuntimeSpec.EndTrial(s.rt, summaryWritten, manifestWritten).0;
    EndCommits(s, s.(rt := q), summaryWritten, manifestWritten);
  }

  predicate EndedWith(s: System, n: System, manifest: Manifest) {
    s.rt.trial == Some(manifest.trial) && n.rt.trial.None? && TrialClosed(n, manifest)
  }

  lemma EndCallEffect(s: System, summaryWritten: bool, manifestWritten: bool)
    ensures Enabled(s, EndCall(summaryWritten, manifestWritten))
    ensures Apply(s, EndCall(summaryWritten, manifestWritten))
      == s.(rt := RuntimeSpec.EndTrial(s.rt, summaryWritten, manifestWritten).0)
  {
  }

  lemma EndCommits(s: System, n: System, summaryWritten: bool, manifestWritten: bool)
    requires Inv(s) && n == s.(rt := RuntimeSpec.EndTrial(s.rt, summaryWritten, manifestWritten).0)
    ensures var ended := RuntimeSpec.EndTrial(s.rt, summaryWritten, manifestWritten).1;
      ended.Returned? ==> EndedWith(s, n, ended.value)
  {
    assert TrialInv(s.rt) && ManifestInv(s.rt.audit);
    hide LogInv, WorkInv, LoadingInv, ControlInv;
  }

  lemma TrialClosedStays(s: System, n: System, manifest: Manifest)
    requires TrialClosed(s, manifest) && Grown(s, n, None, 0)
    ensures TrialClosed(n, manifest)
  {
    hide Issued;
    assert ManifestInv(n.rt.audit);
  }

  lemma AbortEnds(s: System, t: ThreadId, written: bool)
    requires Inv(s) && s.At(t) && s.threads[t].AbortLocked?
    ensures Enabled(s, AbortEnter(t, written))
    ensures var n := Apply(s, AbortEnter(t, written));
      && n.At(t) && n.threads[t] == Releasing
      && (n.rt.trial.None? || (!written && !Up(n.rt)))
  {
    AbortEnterEffect(s, t, written);
    InvHasManifests(s);
    hide Inv, LogInv, LockInv, FlightCount, SessionInv, ReadyInv, PrepareInv, ManifestInv, Apply;
    AbortClears(s.rt, written);
  }

  lemma AbortEnterEffect(s: System, t: ThreadId, written: bool)
    requires s.At(t) && s.threads[t].AbortLocked?
    ensures Enabled(s, AbortEnter(t, written))
    ensures Apply(s, AbortEnter(t, written)) == s.With(t, RuntimeSpec.Abort(s.rt, written).0, Releasing)
  {
  }

  lemma AbortClears(r: Runtime, written: bool)
    requires TrialInv(r)
    ensures var q := RuntimeSpec.Abort(r, written).0; q.trial.None? || (!written && !Up(q))
  {
  }

  lemma AbortGivesUp(s: System, t: ThreadId)
    requires s.At(t) && s.threads[t].AbortWaiting?
    ensures Enabled(s, Busy(t))
    ensures !Apply(s, Busy(t)).At(t) && !Up(Apply(s, Busy(t)).rt)
  {
  }

  lemma NotReached(earlier: seq<Event>, events: seq<Event>)
    requires GoesOn(earlier, events)
    ensures FateOf(events, |earlier|) == AbortFate(false, false, false)
  {
  }

  /** `entry` is the critical section of an abort, if it came to it. */
  ghost predicate EntryLogged(waited: seq<Event>, entry: seq<Event>, events: seq<Event>) {
    if entry == [] then waited == events
    else |entry| == 1 && entry[0].AbortEnter? && GoesOn(waited + entry, events)
  }

  /** The log around one abort command: its arrival, then its critical section unless it gave up. */
  lemma AbortLogged(earlier: seq<Event>, before: seq<Event>, call: Event, waited: seq<Event>, entry: seq<Event>,
                    events: seq<Event>)
    requires GoesOn(earlier, before) && ReachesAbort(call) && GoesOn(before + [call], waited)
    requires EntryLogged(waited, entry, events)
    ensures FateOf(events, |earlier|) == AbortFate(true, entry != [], entry != [] && entry[0].written)
    ensures earlier <= events
  {
    var called := before + [call];
    assert earlier <= called <= waited <= waited + entry <= events;
    assert events[|before|] == called[|before|] == call;
    if entry != [] {
      assert (waited + entry)[|waited|] == entry[0] == events[|waited|];
    }
    forall i | |earlier| <= i < |events| ensures events[i].AbortEnter? ==> entry != [] && i == |waited| {
      LoggedBy(earlier, before, call, waited, entry, events, i);
    }
  }

  lemma LoggedBy(earlier: seq<Event>, before: seq<Event>, call: Event, waited: seq<Event>, entry: seq<Event>,
                 events: seq<Event>, i: nat)
    requires GoesOn(earlier, before) && ReachesAbort(call) && GoesOn(before + [call], waited)
    requires EntryLogged(waited, entry, events)
    requires |earlier| <= i < |events|
    ensures events[i].AbortEnter? ==> entry != [] && i == |waited|
  {
    assert before <= before + [call] <= waited <= waited + entry <= events;
    assert i < |before| ==> events[i] == before[i];
    assert i == |before| ==> events[i] == call;
    assert |before| < i < |waited| ==> events[i] == waited[i];
  }

  // ----- a trial that was there before -----

  /** A server on which a run cannot clean up: a trial is live, no command is in progress, and prepare-skill,
      the first thing a run asks for, is refused. */
  lemma LiveTrialIsReachable() returns (events: seq<Event>, s: System)
    ensures Run(FRESH, events) == Some(s) && Inv(s) && Quiescent(s, None) && s.rt.trial.Some?
    ensures forall skill :: PrepareEnter(s.rt, skill).1.PrepareRefused? && PrepareEnter(s.rt, skill).0 == s.rt
  {
    events, s := TrialRun();
    Reached({}, Backend(None, Root(0)), events, s);
  }
}
