/** The edge's log of a stage against the server's log of the session it ran in. */
module LogAgreement {
  import opened CommonTypes
  import opened TrialAudit
  import opened RuntimeSpec
  import opened ServerSystem
  import opened ServerInvariant
  import opened ServerPreservation
  import opened ServerTheorems
  import opened ServerRely
  import opened ServerLinks
  import opened EdgeAudit

  /** Both lines are about the same request and the same actions. */
  predicate SameRequest(e: EdgeRow, row: Row) {
    && e.session == row.session && e.skill == row.skill && e.generation == row.generation && e.sequence == row.sequence
    && e.requestHash == row.requestHash && e.actionHash == row.actionHash
  }

  /** The edge's rows are the first of the session's, and no request beyond the next one is out. */
  ghost predicate RowsAgree(s: System, log: StageLog, id: SessionId) {
    && Issued(s, id, |log.rows| + 1)
    && s.rt.leases[id].trial == log.trial
    && |log.rows| <= |SessionRows(s.rt, id)|
    && forall i :: 0 <= i < |log.rows| ==> SameRequest(log.rows[i], SessionRows(s.rt, id)[i])
  }

  /** All requests have their rows, and the server committed the trial with that many. */
  ghost predicate CommitAgrees(s: System, log: StageLog, id: SessionId) {
    && log.record.Some? && Issued(s, id, |log.rows|)
    && log.record.value.summary.requestCount == |log.rows| && log.record.value.summary.trial == log.trial
    && TrialClosed(s, log.record.value.summary)
  }

  /** The edge's rows are the first rows of the server's log of the session, which has at most one more.
      For a committed stage there is none more, and the server committed the trial with that count. */
  ghost predicate StageAgrees(s: System, log: StageLog, session: Option<SessionId>) {
    match session
    case None => log.rows == [] && log.record.None?
    case Some(id) =>
      RowsAgree(s, log, id) && (log.record.Some? ==> CommitAgrees(s, log, id))
  }

  /** What agreement says of a session, in numbers. */
  lemma AtMostOneExtraRow(s: System, log: StageLog, id: SessionId)
    requires StageAgrees(s, log, Some(id))
    ensures |log.rows| <= |SessionRows(s.rt, id)| <= |log.rows| + 1
    ensures log.record.Some? ==> |SessionRows(s.rt, id)| == |log.rows|
  {
  }

  lemma PrefixOfSession(a: seq<Row>, b: seq<Row>, id: SessionId)
    requires a <= b
    ensures OfSession(a, id) <= OfSession(b, id)
    decreases |b|
  {
    if a != b {
      PrefixOfSession(a, b[..|b| - 1], id);
    }
  }

  lemma SessionRowsGrow(s: System, n: System, id: SessionId, asker: Option<SessionId>, number: nat)
    requires Grown(s, n, asker, number) && id in s.rt.leases
    ensures id in n.rt.leases && n.rt.leases[id].trial == s.rt.leases[id].trial
    ensures SessionRows(s.rt, id) <= SessionRows(n.rt, id)
  {
    hide Inv, Issued;
    PrefixOfSession(s.rt.audit.RowsOf(s.rt.leases[id].trial), n.rt.audit.RowsOf(s.rt.leases[id].trial), id);
  }

  lemma ClosedForGood(s: System, n: System, manifest: Manifest, asker: Option<SessionId>, number: nat)
    requires TrialClosed(s, manifest) && Grown(s, n, asker, number)
    ensures TrialClosed(n, manifest)
  {
    hide Issued;
    assert ManifestInv(n.rt.audit);
  }

  lemma RowsStillAgree(s: System, n: System, log: StageLog, id: SessionId, asker: Option<SessionId>, number: nat)
    requires RowsAgree(s, log, id) && Grown(s, n, asker, number) && (asker == Some(id) ==> number == |log.rows|)
    ensures RowsAgree(n, log, id)
  {
    SessionRowsGrow(s, n, id, asker, number);
    hide Inv, Issued, TrialClosed, DiskGrows, SameLeases, SameRequest, OfSession, SessionRows;
  }

  lemma CommitStillAgrees(s: System, n: System, log: StageLog, id: SessionId, asker: Option<SessionId>, number: nat)
    requires CommitAgrees(s, log, id) && Grown(s, n, asker, number) && asker != Some(id)
    ensures CommitAgrees(n, log, id)
  {
    ClosedForGood(s, n, log.record.value.summary, asker, number);
    hide Inv, Issued, TrialClosed, DiskGrows, SameLeases;
  }

  /** Agreement outlives whatever the server does next: only the next request of the very session may add a row. */
  lemma AgreementLasts(s: System, n: System, log: StageLog, session: Option<SessionId>, asker: Option<SessionId>,
                       number: nat)
    requires StageAgrees(s, log, session) && Grown(s, n, asker, number)
    requires asker.Some? && asker == session ==> number == |log.rows| && log.record.None?
    ensures StageAgrees(n, log, session)
  {
    hide Grown, RowsAgree, CommitAgrees;
    if session.Some? {
      RowsStillAgree(s, n, log, session.value, asker, number);
      if log.record.Some? {
        CommitStillAgrees(s, n, log, session.value, asker, number);
      }
    }
  }

  // ----- a whole run -----

  function SessionOf(sessions: map<nat, SessionId>, i: nat): Option<SessionId> {
    if i in sessions then Some(sessions[i]) else None
  }

  /** Every stage of the run agrees with the server; no two stages share a session. */
  ghost predicate RunAgrees(s: System, stages: seq<StageLog>, sessions: map<nat, SessionId>) {
    && (forall i: nat :: i < |stages| ==> StageAgrees(s, stages[i], SessionOf(sessions, i)))
    && (forall i :: i in sessions ==> i < |stages| && sessions[i] in s.rt.leases)
    && (forall i, j :: i in sessions && j in sessions && sessions[i] == sessions[j] ==> i == j)
  }

  lemma RunAgreementLasts(s: System, n: System, stages: seq<StageLog>, sessions: map<nat, SessionId>)
    requires RunAgrees(s, stages, sessions) && Grown(s, n, None, 0)
    ensures RunAgrees(n, stages, sessions)
  {
    hide Inv, Issued, StageAgrees;
    forall i: nat | i < |stages| ensures StageAgrees(n, stages[i], SessionOf(sessions, i)) {
      AgreementLasts(s, n, stages[i], SessionOf(sessions, i), None, 0);
    }
  }

  /** The next request of the current stage may be under way. */
  lemma AskingKeepsAgreement(s: System, n: System, stages: seq<StageLog>, sessions: map<nat, SessionId>, current: nat)
    requires RunAgrees(s, stages, sessions) && current < |stages| && current in sessions && stages[current].record.None?
    requires Grown(s, n, Some(sessions[current]), |stages[current].rows|)
    ensures RunAgrees(n, stages, sessions)
  {
    hide Inv, Issued, StageAgrees;
    forall i: nat | i < |stages| ensures StageAgrees(n, stages[i], SessionOf(sessions, i)) {
      AgreementLasts(s, n, stages[i], SessionOf(sessions, i), Some(sessions[current]), |stages[current].rows|);
    }
  }

  /** The edge records the answer to request `|rows|`, which is the server's row of that number. */
  lemma RecordingKeepsAgreement(s: System, log: StageLog, id: SessionId, row: EdgeRow)
    requires StageAgrees(s, log, Some(id)) && log.record.None?
    requires |log.rows| < |SessionRows(s.rt, id)| && SameRequest(row, SessionRows(s.rt, id)[|log.rows|])
    ensures StageAgrees(s, log.(rows := log.rows + [row]), Some(id))
  {
  }

  /** Once the trial is closed with as many rows as the edge has, the stage may be committed. */
  lemma CommittingKeepsAgreement(s: System, log: StageLog, id: SessionId, record: StageRecord)
    requires StageAgrees(s, log, Some(id)) && Issued(s, id, |log.rows|)
    requires TrialClosed(s, record.summary) && record.summary.trial == log.trial
    requires record.summary.requestCount == |SessionRows(s.rt, id)|
    ensures StageAgrees(s, log.(record := Some(record)), Some(id))
  {
  }

  lemma ReplaceStage(s: System, stages: seq<StageLog>, sessions: map<nat, SessionId>, i: nat, log: StageLog)
    requires RunAgrees(s, stages, sessions) && i < |stages| && StageAgrees(s, log, SessionOf(sessions, i))
    ensures RunAgrees(s, stages[i := log], sessions)
  {
    hide StageAgrees;
  }

  lemma AddStage(s: System, stages: seq<StageLog>, sessions: map<nat, SessionId>, log: StageLog)
    requires RunAgrees(s, stages, sessions) && log.rows == [] && log.record.None?
    ensures RunAgrees(s, stages + [log], sessions)
  {
    assert |stages| !in sessions;
    forall i: nat | i < |stages + [log]| ensures StageAgrees(s, (stages + [log])[i], SessionOf(sessions, i)) {
      if i < |stages| {
        assert StageAgrees(s, stages[i], SessionOf(sessions, i));
      }
    }
  }

  /** A failure note changes nothing of what was logged. */
  lemma FailureKeepsAgreement(s: System, stages: seq<StageLog>, failed: seq<StageLog>, sessions: map<nat, SessionId>)
    requires RunAgrees(s, stages, sessions) && |failed| == |stages|
    requires forall i :: 0 <= i < |stages| ==> failed[i] == stages[i].(failure := failed[i].failure)
    ensures RunAgrees(s, failed, sessions)
  {
    forall i: nat | i < |failed| ensures StageAgrees(s, failed[i], SessionOf(sessions, i)) {
      assert StageAgrees(s, stages[i], SessionOf(sessions, i));
    }
  }

  /** The current stage gets its session. */
  lemma AddSession(s: System, n: System, stages: seq<StageLog>, sessions: map<nat, SessionId>, i: nat, id: SessionId)
    requires RunAgrees(s, stages, sessions) && Grown(s, n, None, 0)
    requires i < |stages| && i !in sessions && id !in s.rt.leases && SessionOpened(s, n, id)
    requires n.rt.leases[id].trial == stages[i].trial
    ensures RunAgrees(n, stages, sessions[i := id])
  {
    hide Inv, StageAgrees, Issued, Grown;
    RunAgreementLasts(s, n, stages, sessions);
    NewSessionAgrees(n, stages[i], id);
    forall j: nat | j < |stages| ensures StageAgrees(n, stages[j], SessionOf(sessions[i := id], j)) {
      assert StageAgrees(n, stages[j], SessionOf(sessions, j));
    }
  }

  lemma NewSessionAgrees(s: System, log: StageLog, id: SessionId)
    requires StageAgrees(s, log, None) && Issued(s, id, 0) && s.rt.leases[id].trial == log.trial
    ensures StageAgrees(s, log, Some(id))
  {
  }

  // ----- one session a trial -----

  /** The trial's only session is `id`. */
  ghost predicate OnlyLease(s: System, trial: TrialId, id: SessionId) {
    && id in s.rt.leases && s.rt.leases[id].trial == trial
    && forall other :: other in s.rt.leases && s.rt.leases[other].trial == trial ==> other == id
  }

  lemma OnlyLeaseLasts(s: System, n: System, trial: TrialId, id: SessionId, asker: Option<SessionId>, number: nat)
    requires OnlyLease(s, trial, id) && Grown(s, n, asker, number) && n.rt.leases.Keys == s.rt.leases.Keys
    ensures OnlyLease(n, trial, id)
  {
    hide Inv, Issued;
  }

  lemma FirstLease(s: System, n: System, trial: TrialId, id: SessionId)
    requires NoLeaseOf(s, trial) && Grown(s, n, None, 0) && SessionOpened(s, n, id) && n.rt.leases[id].trial == trial
    ensures OnlyLease(n, trial, id)
  {
    hide Inv, Issued;
  }

  lemma AllOfSession(rows: seq<Row>, id: SessionId)
    requires forall i :: 0 <= i < |rows| ==> rows[i].session == id
    ensures OfSession(rows, id) == rows
    decreases |rows|
  {
    if rows != [] {
      AllOfSession(rows[..|rows| - 1], id);
    }
  }

  /** The manifest that commits a trial with a single session counts that session's rows. */
  lemma SummaryCountsSession(s: System, manifest: Manifest, id: SessionId)
    requires Inv(s) && TrialClosed(s, manifest) && OnlyLease(s, manifest.trial, id)
    ensures manifest.requestCount == |SessionRows(s.rt, id)|
  {
    var rows := s.rt.audit.RowsOf(manifest.trial);
    assert RowInv(s.rt) && ManifestInv(s.rt.audit);
    AllOfSession(rows, id);
  }
}
