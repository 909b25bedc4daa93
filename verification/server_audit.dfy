/** The server's trial audit store (server/audit.py): specification on values.
    A durable write is one step that succeeds or raises. */
module TrialAudit {
  import opened CommonTypes

  datatype TrialStatus = TrialActive | Committed | Aborted | Ambiguous

  /** What server_manifest.json (or trial_summary.json) says. */
  datatype Manifest = Manifest(
    status: TrialStatus,
    trial: TrialId,
    skill: Skill,
    generation: nat,
    seed: int,
    requestCount: nat,
    ambiguousSequence: Option<nat>)

  datatype ActiveTrial = ActiveTrial(
    trial: TrialId,
    skill: Skill,
    generation: nat,
    seed: int,
    requestCount: nat,
    firstAction: Option<Digest>,
    lastAction: Option<Digest>)
  {
    /** The manifest written for this trial when it has the given status. */
    function Entry(status: TrialStatus, count: nat, sequence: Option<nat>): Manifest {
      Manifest(status, trial, skill, generation, seed, count, sequence)
    }
  }

  /** `directories` is the audit root on disk; `manifests[t]` lists every write of
      t's server_manifest.json in order; `rows[t]` is t's requests.jsonl; `chunks[t]` is the action
      hash in t's first_action_chunk.json. */
  datatype Store = Store(
    active: Option<ActiveTrial>,
    directories: set<TrialId>,
    manifests: map<TrialId, seq<Manifest>>,
    rows: map<TrialId, seq<Row>>,
    summaries: map<TrialId, Manifest>,
    chunks: map<TrialId, Digest>)
  {
    function RowsOf(t: TrialId): seq<Row> {
      if t in rows then rows[t] else []
    }

    function WritesOf(t: TrialId): seq<Manifest> {
      if t in manifests then manifests[t] else []
    }
  }

  /** How far begin() gets on disk. */
  datatype BeginIo = DirectoryFails | ManifestFails | BeginWritten

  function Begin(a: Store, trial: TrialId, skill: Skill, generation: nat, seed: int, io: BeginIo)
    : (Store, Outcome<TrialId>)
  {
    if a.active.Some? then (a, Raised(TrialAlreadyActive))
    else if trial in a.directories || io.DirectoryFails? then (a, Raised(AuditCommitFailed))
    else if io.ManifestFails? then (a.(directories := a.directories + {trial}), Raised(AuditCommitFailed))
    else
      var t := ActiveTrial(trial, skill, generation, seed, 0, None, None);
      (a.(active := Some(t),
          directories := a.directories + {trial},
          manifests := a.manifests[trial := [t.Entry(TrialActive, 0, None)]],
          rows := a.rows[trial := []]),
       Returned(trial))
  }

  /** How far record_request() gets on disk: the first chunk's files come before the row.
      An error that is not an OSError escapes and is reported by infer as POLICY_FAILED. */
  datatype RecordIo = NothingWritten(osError: bool) | ChunkWritten(osError: bool) | RowWritten

  /** The first action chunk of a trial gets a file of its own. */
  function WithChunk(a: Store, t: ActiveTrial, row: Row): Store {
    if t.firstAction.Some? then a else a.(chunks := a.chunks[t.trial := row.actionHash])
  }

  function WithRow(a: Store, t: ActiveTrial, row: Row): Store {
    var first := if t.firstAction.None? then Some(row.actionHash) else t.firstAction;
    var counted := t.(requestCount := t.requestCount + 1, firstAction := first, lastAction := Some(row.actionHash));
    a.(active := Some(counted), rows := a.rows[t.trial := a.RowsOf(t.trial) + [row]])
  }

  /** `record_request`: the row is appended to the active trial's log, whatever trial the row names. */
  function Record(a: Store, row: Row, io: RecordIo): (Store, Outcome<()>) {
    if a.active.None? then (a, Raised(TrialRequired))
    else
      match io
      case NothingWritten(osError) => (a, Raised(if osError then AuditCommitFailed else PolicyFailed))
      case ChunkWritten(osError) =>
        (WithChunk(a, a.active.value, row), Raised(if osError then AuditCommitFailed else PolicyFailed))
      case RowWritten => (WithRow(WithChunk(a, a.active.value, row), a.active.value, row), Returned(()))
  }

  /** `end` writes trial_summary.json and then server_manifest.json; either write may fail. */
  function End(a: Store, summaryWritten: bool, manifestWritten: bool): (Store, Outcome<Manifest>) {
    if a.active.None? then (a, Raised(TrialRequired))
    else
      var t := a.active.value;
      var entry := t.Entry(Committed, t.requestCount, None);
      if !summaryWritten then (a, Raised(AuditCommitFailed))
      else if !manifestWritten then (a.(summaries := a.summaries[t.trial := entry]), Raised(AuditCommitFailed))
      else
        (a.(active := None,
            summaries := a.summaries[t.trial := entry],
            manifests := a.manifests[t.trial := a.WritesOf(t.trial) + [entry]]),
         Returned(entry))
  }

  /** `_terminate`, behind both abort and mark_ambiguous. */
  function Terminate(a: Store, status: TrialStatus, sequence: Option<nat>, written: bool)
    : (Store, Outcome<Option<Manifest>>)
  {
    if a.active.None? then (a, Returned(None))
    else if !written then (a, Raised(AuditCommitFailed))
    else
      var t := a.active.value;
      var entry := t.Entry(status, t.requestCount, sequence);
      (a.(active := None, manifests := a.manifests[t.trial := a.WritesOf(t.trial) + [entry]]), Returned(Some(entry)))
  }
}
