/** What the files of a trial say about each other, in every run of the server. */
module ServerDisk {
  import opened CommonTypes
  import opened States
  import opened TrialAudit
  import opened RuntimeSpec
  import opened ServerSystem
  import opened ServerInvariant
  import opened ServerPreservation
  import opened ServerTheorems

  // ----- what one step may do to the store -----

  /** A property of one trial's files that no operation of the store breaks, except perhaps `end`. */
  ghost predicate ChunkTold(a: Store, t: TrialId) {
    var rows := a.RowsOf(t);
    && (rows != [] ==> t in a.chunks && a.chunks[t] == rows[0].actionHash)
    && (a.active.Some? && a.active.value.trial == t ==>
          a.active.value.firstAction == if rows == [] then None else Some(rows[0].actionHash))
  }

  lemma BeginTellsChunk(a: Store, trial: TrialId, skill: Skill, generation: nat, seed: int, io: BeginIo, t: TrialId)
    requires ManifestInv(a) && ChunkTold(a, t)
    ensures ChunkTold(Begin(a, trial, skill, generation, seed, io).0, t)
  {
  }

  lemma RecordTellsChunk(a: Store, row: Row, io: RecordIo, t: TrialId)
    requires ManifestInv(a) && ChunkTold(a, t)
    ensures ChunkTold(Record(a, row, io).0, t)
  {
  }

  lemma EndingTellsChunk(s: System, e: Event, t: TrialId)
    requires ControlInv(s) && Enabled(s, e) && EndingStep(e) && ChunkTold(s.rt.audit, t)
    ensures ChunkTold(Apply(s, e).rt.audit, t)
  {
    hide Apply, LockInv, FlightCount, SessionInv, TrialInv, ReadyInv, PrepareInv, RowsUntouched;
    match e
    case EndCall(_, _) => EndIsUntouched(s, e);
    case AbortEnter(_, _) => AbortIsUntouched(s, e);
    case AmbiguousCall(_, _, _) => AmbiguousIsUntouched(s, e);
    case CloseCall(_, _) => CloseIsUntouched(s, e);
    case CloseBackend(_) => QuietIsUntouched(s, e);
  }

  lemma StepTellsChunk(s: System, e: Event, t: TrialId)
    requires ControlInv(s) && ManifestInv(s.rt.audit) && Enabled(s, e) && ChunkTold(s.rt.audit, t)
    ensures ChunkTold(Apply(s, e).rt.audit, t)
  {
    if EndingStep(e) {
      EndingTellsChunk(s, e, t);
    } else if e.BeginEnter? {
      BeginEffect(s, e);
      if Apply(s, e).rt.audit != s.rt.audit {
        var pc := s.threads[e.t];
        hide Apply;
        BeginTellsChunk(s.rt.audit, pc.trial, s.rt.activeSkill.value, s.rt.generation, pc.seed, e.io.io, t);
      }
    } else if e.InferRecord? {
      RecordEffect(s, e);
      var pc := s.threads[e.t];
      hide Apply;
      RecordTellsChunk(s.rt.audit, RowFor(pc.req, pc.noise, pc.actions), e.disk, t);
    } else {
      OtherStepsKeepStore(s, e);
    }
  }

  lemma RecordEffect(s: System, e: Event)
    requires Enabled(s, e) && e.InferRecord?
    ensures var pc := s.threads[e.t];
      Apply(s, e).rt.audit == Record(s.rt.audit, RowFor(pc.req, pc.noise, pc.actions), e.disk).0
  {
    InferApplies(s, e);
    hide Apply;
  }

  lemma OtherStepsKeepStore(s: System, e: Event)
    requires ControlInv(s) && ManifestInv(s.rt.audit) && Enabled(s, e)
    requires !EndingStep(e) && !e.BeginEnter? && !e.InferRecord?
    ensures Apply(s, e).rt.audit == s.rt.audit
  {
    hide Apply, FlightCount, ReadyInv, PrepareInv, ManifestInv, RowsUntouched, Excused;
    if e.InferRespond? {
      RespondEffect(s, e);
    } else if e.OpenCall? {
      OpenEffect(s, e);
    } else {
      QuietIsUntouched(s, e);
    }
  }

  lemma {:induction false} RunTellsChunk(disk: set<TrialId>, backend: Backend, events: seq<Event>, s: System,
                                         t: TrialId)
    requires Reaches(disk, backend, events, s)
    ensures ChunkTold(s.rt.audit, t)
    decreases |events|
  {
    if events != [] {
      var last := |events| - 1;
      var before := Run(Start(disk, backend), events[..last]).value;
      RunTellsChunk(disk, backend, events[..last], before, t);
      Reached(disk, backend, events[..last], before);
      StepTellsChunk(before, events[last], t);
    }
  }

  /** first_action_chunk.json of a trial with rows describes its row 0, whatever writes failed before it. */
  lemma FirstChunkIsRowZero(disk: set<TrialId>, backend: Backend, events: seq<Event>, s: System, t: TrialId)
    requires Reaches(disk, backend, events, s) && s.rt.audit.RowsOf(t) != []
    ensures t in s.rt.audit.chunks && s.rt.audit.chunks[t] == s.rt.audit.RowsOf(t)[0].actionHash
  {
    RunTellsChunk(disk, backend, events, s, t);
  }

  // ----- trial_summary.json against server_manifest.json -----

  /** This end_trial is not refused, concerns trial t, and gets at least its summary written. */
  predicate EndsTrial(s: System, e: Event, t: TrialId) {
    e.EndCall? && e.summaryWritten && s.rt.trial == Some(t) && !HasActiveSession(s.rt)
  }

  /** Event i of the run is such an end of t, whose manifest write succeeds or fails. */
  ghost predicate EndsAt(start: System, events: seq<Event>, i: nat, t: TrialId, manifestWritten: bool)
    requires i < |events|
  {
    var before := Run(start, events[..i]);
    before.Some? && EndsTrial(before.value, events[i], t) && events[i].manifestWritten == manifestWritten
  }

  ghost predicate Ended(start: System, events: seq<Event>, t: TrialId, manifestWritten: bool) {
    exists i: nat :: i < |events| && EndsAt(start, events, i, t, manifestWritten)
  }

  /** An end of t failed after its first write. */
  ghost predicate HalfEnded(start: System, events: seq<Event>, t: TrialId) {
    Ended(start, events, t, false)
  }

  /** An end of t succeeded. */
  ghost predicate FullyEnded(start: System, events: seq<Event>, t: TrialId) {
    Ended(start, events, t, true)
  }

  lemma EndsMore(start: System, events: seq<Event>, t: TrialId, w: bool)
    requires events != [] && Run(start, events[..|events| - 1]).Some?
    ensures var last := |events| - 1;
      Ended(start, events, t, w) <==>
        || Ended(start, events[..last], t, w)
        || (EndsTrial(Run(start, events[..last]).value, events[last], t) && events[last].manifestWritten == w)
  {
    var last := |events| - 1;
    var front := events[..last];
    forall i: nat | i < last ensures EndsAt(start, events, i, t, w) == EndsAt(start, front, i, t, w) {
      assert front[..i] == events[..i];
    }
    hide Run, EndsTrial;
    if Ended(start, front, t, w) {
      var i: nat :| i < last && EndsAt(start, front, i, t, w);
      assert EndsAt(start, events, i, t, w);
    }
    if EndsTrial(Run(start, front).value, events[last], t) && events[last].manifestWritten == w {
      assert EndsAt(start, events, last, t, w);
    }
    if Ended(start, events, t, w) {
      var i: nat :| i < |events| && EndsAt(start, events, i, t, w);
      assert i < last ==> EndsAt(start, front, i, t, w);
    }
  }

  /** t's two files, given whether an end of t failed half-way and whether one succeeded. */
  ghost predicate SummaryTold(a: Store, t: TrialId, half: bool, full: bool) {
    && (t in a.summaries <==> half || full)
    && (t in a.summaries ==> a.summaries[t].status == Committed)
    && (full ==> |a.WritesOf(t)| == 2 && a.WritesOf(t)[1] == a.summaries[t])
    && (|a.WritesOf(t)| == 2 && a.WritesOf(t)[1].status == Committed ==> full)
  }

  lemma EndTellsSummary(a: Store, summaryWritten: bool, manifestWritten: bool, t: TrialId, half: bool, full: bool)
    requires ManifestInv(a) && SummaryTold(a, t, half, full)
    ensures var now := summaryWritten && a.active.Some? && a.active.value.trial == t;
      SummaryTold(End(a, summaryWritten, manifestWritten).0, t,
                  half || (now && !manifestWritten), full || (now && manifestWritten))
  {
  }

  lemma TerminateTellsSummary(a: Store, status: TrialStatus, sequence: Option<nat>, written: bool,
                              t: TrialId, half: bool, full: bool)
    requires ManifestInv(a) && SummaryTold(a, t, half, full) && status != TrialActive && status != Committed
    ensures SummaryTold(Terminate(a, status, sequence, written).0, t, half, full)
  {
  }

  lemma BeginTellsSummary(a: Store, trial: TrialId, skill: Skill, generation: nat, seed: int, io: BeginIo,
                          t: TrialId, half: bool, full: bool)
    requires ManifestInv(a) && SummaryTold(a, t, half, full)
    ensures SummaryTold(Begin(a, trial, skill, generation, seed, io).0, t, half, full)
  {
  }

  lemma EndCallTellsSummary(s: System, e: Event, t: TrialId, half: bool, full: bool)
    requires ControlInv(s) && ManifestInv(s.rt.audit) && Enabled(s, e) && e.EndCall?
    requires SummaryTold(s.rt.audit, t, half, full)
    ensures var now := EndsTrial(s, e, t);
      SummaryTold(Apply(s, e).rt.audit, t, half || (now && !e.manifestWritten), full || (now && e.manifestWritten))
  {
    EndTellsSummary(s.rt.audit, e.summaryWritten, e.manifestWritten, t, half, full);
    EndCallStore(s, e);
    hide Apply, ManifestInv, SummaryTold, LockInv, FlightCount, SessionInv, ReadyInv, PrepareInv;
  }

  /** A refused end_trial leaves the store alone. */
  lemma EndCallStore(s: System, e: Event)
    requires TrialInv(s.rt) && Enabled(s, e) && e.EndCall?
    ensures Apply(s, e).rt.audit ==
      if HasActiveSession(s.rt) then s.rt.audit else End(s.rt.audit, e.summaryWritten, e.manifestWritten).0
  {
    EndingApplies(s, e);
    hide Apply;
  }

  lemma OtherEndingTellsSummary(s: System, e: Event, t: TrialId, half: bool, full: bool)
    requires ControlInv(s) && ManifestInv(s.rt.audit) && Enabled(s, e) && EndingStep(e) && !e.EndCall?
    requires SummaryTold(s.rt.audit, t, half, full)
    ensures SummaryTold(Apply(s, e).rt.audit, t, half, full)
  {
    hide Apply, LockInv, FlightCount, SessionInv, TrialInv, ReadyInv, PrepareInv, RowsUntouched, ManifestInv,
      SummaryTold;
    match e
    case AbortEnter(_, written) =>
      AbortIsUntouched(s, e);
      TerminateTellsSummary(s.rt.audit, TrialStatus.Aborted, None, written, t, half, full);
    case AmbiguousCall(_, sequence, written) =>
      AmbiguousIsUntouched(s, e);
      TerminateTellsSummary(s.rt.audit, Ambiguous, Some(sequence), written, t, half, full);
    case CloseCall(_, written) =>
      CloseIsUntouched(s, e);
      TerminateTellsSummary(s.rt.audit, TrialStatus.Aborted, None, written, t, half, full);
    case CloseBackend(_) => QuietIsUntouched(s, e);
  }

  lemma StepTellsSummary(s: System, e: Event, t: TrialId, half: bool, full: bool)
    requires ControlInv(s) && ManifestInv(s.rt.audit) && Enabled(s, e) && SummaryTold(s.rt.audit, t, half, full)
    ensures var now := EndsTrial(s, e, t);
      SummaryTold(Apply(s, e).rt.audit, t, half || (now && !e.manifestWritten), full || (now && e.manifestWritten))
  {
    if e.EndCall? {
      EndCallTellsSummary(s, e, t, half, full);
    } else if EndingStep(e) {
      OtherEndingTellsSummary(s, e, t, half, full);
    } else if e.BeginEnter? {
      BeginEffect(s, e);
      if Apply(s, e).rt.audit != s.rt.audit {
        var pc := s.threads[e.t];
        hide Apply;
        BeginTellsSummary(s.rt.audit, pc.trial, s.rt.activeSkill.value, s.rt.generation, pc.seed, e.io.io,
                          t, half, full);
      }
    } else if e.InferRecord? {
      RecordStepTellsSummary(s, e, t, half, full);
    } else {
      OtherStepsKeepStore(s, e);
    }
  }

  lemma RecordStepTellsSummary(s: System, e: Event, t: TrialId, half: bool, full: bool)
    requires Enabled(s, e) && e.InferRecord? && SummaryTold(s.rt.audit, t, half, full)
    ensures SummaryTold(Apply(s, e).rt.audit, t, half, full)
  {
    RecordEffect(s, e);
    hide Apply;
  }

  lemma {:induction false} RunTellsSummary(disk: set<TrialId>, backend: Backend, events: seq<Event>, s: System,
                                           t: TrialId)
    requires Reaches(disk, backend, events, s)
    ensures var start := Start(disk, backend);
      SummaryTold(s.rt.audit, t, HalfEnded(start, events, t), FullyEnded(start, events, t))
    decreases |events|
  {
    var start := Start(disk, backend);
    if events != [] {
      var last := |events| - 1;
      var before := Run(start, events[..last]).value;
      RunTellsSummary(disk, backend, events[..last], before, t);
      Reached(disk, backend, events[..last], before);
      hide SummaryTold, Apply, LogInv, Ended;
      InvHasManifests(before);
      var front := events[..last];
      StepTellsSummary(before, events[last], t, HalfEnded(start, front, t), FullyEnded(start, front, t));
      EndsMore(start, events, t, false);
      EndsMore(start, events, t, true);
    }
  }

  lemma InvHasManifests(s: System)
    requires Inv(s)
    ensures ControlInv(s) && ManifestInv(s.rt.audit)
  {
  }

  /** The exact condition: a closed trial's trial_summary.json disagrees with its server_manifest.json
      if and only if an end of that trial failed between its two writes and none succeeded. */
  lemma SummaryContradictsManifestIff(disk: set<TrialId>, backend: Backend, events: seq<Event>, s: System, t: TrialId)
    requires Reaches(disk, backend, events, s) && |s.rt.audit.WritesOf(t)| == 2
    ensures t in s.rt.audit.summaries && s.rt.audit.summaries[t] != s.rt.audit.WritesOf(t)[1] <==>
      HalfEnded(Start(disk, backend), events, t) && !FullyEnded(Start(disk, backend), events, t)
  {
    RunTellsSummary(disk, backend, events, s, t);
  }

  // ----- runs that show it -----

  /** One more step of a run. */
  lemma Next(start: System, events: seq<Event>, s: System, e: Event) returns (more: seq<Event>, n: System)
    requires Run(start, events) == Some(s) && Enabled(s, e)
    ensures more == events + [e] && n == Apply(s, e) && Run(start, more) == Some(n)
  {
    more, n := events + [e], Apply(s, e);
    assert more[..|events|] == events;
  }

  /** A fresh server. */
  const FRESH: System := Start({}, Backend(None, Root(0)))

  const OPEN: ActiveTrial := ActiveTrial("trial", "skill", 1, 7, 0, None, None)

  /** The server that is READY for one skill, with one trial live. */
  function WithTrial(audit: Store): Runtime {
    Runtime(Ready, Some("skill"), 1, None, map[], Some("trial"), Some(7), 0, None, audit,
            Backend(Some("skill"), Root(7)))
  }

  function OpenStore(): Store {
    Store(Some(OPEN), {"trial"}, map["trial" := [OPEN.Entry(TrialActive, 0, None)]], map["trial" := []], map[], map[])
  }

  /** prepare-skill on a fresh server, up to the commit. */
  lemma PreparedRun() returns (events: seq<Event>, s: System)
    ensures Run(FRESH, events) == Some(s) && s.At(0) && s.threads[0] == PrepareCommitting("skill")
    ensures s.threads == map[0 := PrepareCommitting("skill")] && s.lock.None? && s.responses == []
    ensures s.rt == FRESH.rt.(state := Loading, backend := Backend(Some("skill"), Root(0)))
  {
    events, s := [], FRESH;
    events, s := Next(FRESH, events, s, PrepareCall(0, "skill"));
    assert s.threads == map[0 := PrepareLoading("skill")] && s.rt == FRESH.rt.(state := Loading);
    events, s := Next(FRESH, events, s, Acquire(0));
    assert s.threads == map[0 := PrepareLocked("skill")];
    events, s := Next(FRESH, events, s, PrepareBackend(0, true, FRESH.rt.backend));
    assert s.threads == map[0 := PreparePrepared("skill")];
    events, s := Next(FRESH, events, s, Release(0));
    assert s.threads == map[0 := PrepareCommitting("skill")];
  }

  /** A shutdown between backend.prepare and the commit: prepare_skill raises, and skill and generation are new. */
  lemma CommitMayRaise() returns (events: seq<Event>, s: System)
    ensures Run(FRESH, events) == Some(s) && s.At(0) && s.threads[0] == PrepareCommitting("skill")
    ensures var (r, committed) := PrepareCommit(s.rt, "skill");
      && committed.Raised? && s.rt.activeSkill.None?
      && r.activeSkill == Some("skill") && r.generation == s.rt.generation + 1
  {
    events, s := PreparedRun();
    events, s := Next(FRESH, events, s, CloseCall(1, true));
  }

  /** When that happens: the commit always changes skill and generation, and raises exactly when the server
      left LOADING, that is when it failed or was shut down since. */
  lemma CommitRaisesIff(disk: set<TrialId>, backend: Backend, events: seq<Event>, s: System, t: ThreadId)
    requires Reaches(disk, backend, events, s) && s.At(t) && s.threads[t].PrepareCommitting?
    ensures var (r, committed) := PrepareCommit(s.rt, s.threads[t].skill);
      && r.activeSkill == Some(s.threads[t].skill) && r.generation == s.rt.generation + 1
      && (committed.Raised? <==> s.rt.state != Loading)
      && (committed.Raised? <==> s.rt.state == Failed || s.rt.state == Stopping)
  {
    Reached(disk, backend, events, s);
    assert PrepareInv(s);
  }

  /** begin-trial after it. */
  lemma TrialRun() returns (events: seq<Event>, s: System)
    ensures Run(FRESH, events) == Some(s)
    ensures s == System(WithTrial(OpenStore()), None, map[], [])
  {
    events, s := PreparedRun();
    events, s := Next(FRESH, events, s, PrepareDone(0));
    assert s.threads == map[];
    events, s := Next(FRESH, events, s, Call(0, BeginWaiting("trial", 7)));
    assert s.threads == map[0 := BeginWaiting("trial", 7)];
    events, s := Next(FRESH, events, s, Acquire(0));
    assert s.threads == map[0 := BeginLocked("trial", 7)];
    events, s := BegunRun(events, s);
  }

  lemma BegunRun(events: seq<Event>, s: System) returns (more: seq<Event>, n: System)
    requires Run(FRESH, events) == Some(s) && s.threads == map[0 := BeginLocked("trial", 7)] && s.responses == []
    requires s.rt == FRESH.rt.(state := Ready, activeSkill := Some("skill"), generation := 1,
                               backend := Backend(Some("skill"), Root(0)))
    ensures Run(FRESH, more) == Some(n) && n == System(WithTrial(OpenStore()), None, map[], [])
  {
    more, n := Next(FRESH, events, s, BeginEnter(0, ResetDone(BeginWritten)));
    assert n.threads == map[0 := Releasing];
    assert n.rt == WithTrial(OpenStore());
    more, n := Next(FRESH, more, n, Release(0));
    assert n.threads == map[];
  }

  const ENTRY: Manifest := OPEN.Entry(Committed, 0, None)

  /** end-trial after it, failing at its second write. */
  lemma HalfEndedRun() returns (events: seq<Event>, s: System)
    ensures Run(FRESH, events) == Some(s)
    ensures var q := WithTrial(OpenStore().(summaries := map["trial" := ENTRY]));
      s == System(q.(state := Failed, lastError := Some(AuditCommitFailed)), None, map[], [])
  {
    events, s := TrialRun();
    events, s := Next(FRESH, events, s, EndCall(true, false));
    assert s.threads == map[];
  }

  /** A run in which the two files disagree: end_trial fails at its second write, and an abort then succeeds. */
  lemma SummaryMayContradictManifest() returns (events: seq<Event>, s: System)
    ensures Reaches({}, Backend(None, Root(0)), events, s)
    ensures HalfEnded(FRESH, events, "trial") && !FullyEnded(FRESH, events, "trial")
    ensures "trial" in s.rt.audit.summaries && s.rt.audit.summaries["trial"].status == Committed
    ensures |s.rt.audit.WritesOf("trial")| == 2 && s.rt.audit.WritesOf("trial")[1].status == TrialStatus.Aborted
  {
    events, s := HalfEndedRun();
    events, s := Next(FRESH, events, s, Call(0, AbortWaiting));
    assert s.threads == map[0 := AbortWaiting];
    events, s := Next(FRESH, events, s, Acquire(0));
    assert s.threads == map[0 := AbortLocked];
    events, s := Next(FRESH, events, s, AbortEnter(0, true));
    hide Apply, HalfEnded, FullyEnded;
    SummaryContradictsManifestIff({}, Backend(None, Root(0)), events, s, "trial");
  }
}
