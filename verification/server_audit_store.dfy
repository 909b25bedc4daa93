/** TrialAuditStore (server/audit.py) as the object it is: every method is proved to do what TrialAudit says.
    A write may fail; which writes succeeded is returned as a ghost. */
module TrialAuditStores {
  import opened CommonTypes
  import opened TrialAudit

  class TrialAuditStore {
    var active: Option<ActiveTrial>
    /** What is under the audit root. */
    var directories: set<TrialId>
    var manifests: map<TrialId, seq<Manifest>>
    var rows: map<TrialId, seq<Row>>
    var summaries: map<TrialId, Manifest>
    var chunks: map<TrialId, Digest>

    function View(): Store
      reads this
    {
      Store(active, directories, manifests, rows, summaries, chunks)
    }

    constructor (directories: set<TrialId>)
      ensures View() == Store(None, directories, map[], map[], map[], map[])
    {
      active, this.directories, manifests, rows, summaries, chunks := None, directories, map[], map[], map[], map[];
    }

    method Begin(trial: TrialId, skill: Skill, generation: nat, seed: int)
      returns (r: Outcome<TrialId>, ghost io: BeginIo)
      modifies this
      ensures (View(), r) == old(TrialAudit.Begin(View(), trial, skill, generation, seed, io))
    {
      io := DirectoryFails;
      if active.Some? {
        return Raised(TrialAlreadyActive), io;
      }
      var made: bool, written: bool := *, *;
      if trial in directories || !made {
        return Raised(AuditCommitFailed), io;
      }
      directories := directories + {trial};
      if !written {
        return Raised(AuditCommitFailed), ManifestFails;
      }
      var t := ActiveTrial(trial, skill, generation, seed, 0, None, None);
      manifests := manifests[trial := [t.Entry(TrialActive, 0, None)]];
      rows := rows[trial := []];
      active := Some(t);
      return Returned(trial), BeginWritten;
    }

    /** The first action chunk of a trial is saved before its row; any write may fail, and other errors may escape. */
    method RecordRequest(row: Row) returns (r: Outcome<()>, ghost io: RecordIo)
      modifies this
      ensures (View(), r) == old(TrialAudit.Record(View(), row, io))
    {
      var chunkSaved: bool, appended: bool, osError: bool := *, *, *;
      var code := if osError then AuditCommitFailed else PolicyFailed;
      io := NothingWritten(osError);
      if active.None? {
        return Raised(TrialRequired), io;
      }
      var t := active.value;
      if t.firstAction.None? {
        if !chunkSaved {
          return Raised(code), io;
        }
        chunks := chunks[t.trial := row.actionHash];
      }
      io := ChunkWritten(osError);
      if !appended {
        return Raised(code), io;
      }
      rows := rows[t.trial := (if t.trial in rows then rows[t.trial] else []) + [row]];
      active := Some(active.value.(requestCount := active.value.requestCount + 1));
      if active.value.firstAction.None? {
        active := Some(active.value.(firstAction := Some(row.actionHash)));
      }
      active := Some(active.value.(lastAction := Some(row.actionHash)));
      return Returned(()), RowWritten;
    }

    method End() returns (r: Outcome<Manifest>, ghost summaryWritten: bool, ghost manifestWritten: bool)
      modifies this
      ensures (View(), r) == old(TrialAudit.End(View(), summaryWritten, manifestWritten))
    {
      summaryWritten, manifestWritten := false, false;
      if active.None? {
        return Raised(TrialRequired), summaryWritten, manifestWritten;
      }
      var t := active.value;
      var summary := t.Entry(Committed, t.requestCount, None);
      var first: bool, second: bool := *, *;
      if !first {
        return Raised(AuditCommitFailed), summaryWritten, manifestWritten;
      }
      summaryWritten := true;
      summaries := summaries[t.trial := summary];
      if !second {
        return Raised(AuditCommitFailed), summaryWritten, manifestWritten;
      }
      manifestWritten := true;
      manifests := manifests[t.trial := (if t.trial in manifests then manifests[t.trial] else []) + [summary]];
      active := None;
      return Returned(summary), summaryWritten, manifestWritten;
    }

    /** `_terminate`, behind abort and mark_ambiguous. */
    method Terminate(status: TrialStatus, sequence: Option<nat>)
      returns (r: Outcome<Option<Manifest>>, ghost written: bool)
      modifies this
      ensures (View(), r) == old(TrialAudit.Terminate(View(), status, sequence, written))
    {
      written := false;
      if active.None? {
        return Returned(None), written;
      }
      var t := active.value;
      var summary := t.Entry(status, t.requestCount, sequence);
      var replaced: bool := *;
      if !replaced {
        return Raised(AuditCommitFailed), written;
      }
      written := true;
      manifests := manifests[t.trial := (if t.trial in manifests then manifests[t.trial] else []) + [summary]];
      active := None;
      return Returned(Some(summary)), written;
    }
  }
}
