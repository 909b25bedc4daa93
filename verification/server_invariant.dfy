/** The inductive invariant of the server system. */
module ServerInvariant {
  import opened CommonTypes
  import opened States
  import opened TrialAudit
  import opened RuntimeSpec
  import opened ServerSystem

  // ----- rows of one session -----

  /** The rows of `rows` that belong to session `id`, in order. */
  function OfSession(rows: seq<Row>, id: SessionId): seq<Row>
    decreases |rows|
  {
    if rows == [] then []
    else
      var front := OfSession(rows[..|rows| - 1], id);
      if rows[|rows| - 1].session == id then front + [rows[|rows| - 1]] else front
  }

  /** The server's log of session `id`: its rows in the log of its trial. */
  function SessionRows(r: Runtime, id: SessionId): seq<Row>
    requires id in r.leases
  {
    OfSession(r.audit.RowsOf(r.leases[id].trial), id)
  }

  /** The rows of the responses given, in order. */
  function Answered(responses: seq<Response>): seq<Row> {
    seq(|responses|, i requires 0 <= i < |responses| => responses[i].row)
  }

  // ----- the parts of the invariant -----

  /** The execution lock is owned by exactly the thread whose program counter says so. */
  ghost predicate LockInv(s: System) {
    && (s.lock.Some? ==> s.At(s.lock.value) && HoldsLock(s.Holder()))
    && (forall t :: s.At(t) && HoldsLock(s.threads[t]) ==> s.lock == Some(t))
  }

  ghost predicate FlightCount(s: System)
    requires LockInv(s)
  {
    s.rt.inFlight == if s.lock.Some? && InFlight(s.Holder()) then 1 else 0
  }

  /** Runtime, lease and audit agree. */
  ghost predicate SessionInv(r: Runtime) {
    && (r.session.Some? ==>
          && r.session.value in r.leases
          && r.state == Ready
          && var lease := r.leases[r.session.value];
             && lease.status == Active && lease.token != ""
             && r.activeSkill == Some(lease.skill) && r.generation == lease.generation && r.trial == Some(lease.trial))
    && (forall id :: id in r.leases && r.session != Some(id) ==>
        r.leases[id].status != Active && r.leases[id].token == "")
  }

  ghost predicate TrialInv(r: Runtime) {
    && r.trial == (if r.audit.active.Some? then Some(r.audit.active.value.trial) else None)
    && r.rootSeed == (if r.audit.active.Some? then Some(r.audit.active.value.seed) else None)
  }

  ghost predicate ReadyInv(r: Runtime) {
    && r.state != Draining && r.state != Switching
    && (r.state == Ready ==> r.activeSkill.Some? && r.backend.prepared == r.activeSkill && r.generation >= 1)
    && (r.state == Starting ==> r.generation == 0)
    && (r.state == Starting || r.state == Loading ==> r.trial.None?)
  }

  predicate PreparingAt(s: System, t: ThreadId) {
    s.At(t) && Preparing(s.threads[t])
  }

  /** LOADING lasts no longer than the preparation that set it. */
  ghost predicate LoadingInv(s: System) {
    s.rt.state == Loading ==> exists t :: PreparingAt(s, t)
  }

  /** At most one preparation runs, and it sees no trial. */
  ghost predicate PrepareInv(s: System) {
    && (forall t :: s.At(t) && Preparing(s.threads[t]) ==>
          && !s.threads[t].PrepareDraining?
          && s.rt.trial.None?
          && (s.rt.state == Loading || s.rt.state == Failed || s.rt.state == Stopping)
          && (s.rt.state == Loading && (s.threads[t].PreparePrepared? || s.threads[t].PrepareCommitting?) ==>
                s.rt.backend.prepared == Some(s.threads[t].skill)))
    && (forall t, u :: s.At(t) && s.At(u) && Preparing(s.threads[t]) && Preparing(s.threads[u]) ==> t == u)
    && (forall t :: s.At(t) && s.threads[t].Closing? ==> s.rt.state == Stopping)
  }

  /** Every manifest starts ACTIVE and is closed at most once; the open one is the active trial's. */
  ghost predicate ManifestInv(a: Store) {
    && a.manifests.Keys == a.rows.Keys
    && (forall t :: t in a.manifests ==>
          && t in a.directories
          && 1 <= |a.manifests[t]| <= 2
          && a.manifests[t][0].status == TrialActive
          && (|a.manifests[t]| == 2 ==>
              a.manifests[t][1].status != TrialActive && a.manifests[t][1].requestCount == |a.RowsOf(t)|)
          && (forall i :: 0 <= i < |a.manifests[t]| ==>
              a.manifests[t][i].trial == t && a.manifests[t][i].seed == a.manifests[t][0].seed)
          && (|a.manifests[t]| == 1 <==> a.active.Some? && a.active.value.trial == t))
    && (a.active.Some? ==>
          var t := a.active.value;
          && t.trial in a.manifests
          && a.manifests[t.trial] == [t.Entry(TrialActive, 0, None)]
          && t.requestCount == |a.RowsOf(t.trial)|)
  }

  /** Rows name the trial they are filed under and a lease of that trial. */
  ghost predicate RowInv(r: Runtime) {
    && (forall id :: id in r.leases ==> r.leases[id].trial in r.audit.manifests)
    && (forall t, i :: t in r.audit.rows && 0 <= i < |r.audit.rows[t]| ==>
          var row := r.audit.rows[t][i];
          && row.trial == t && row.session in r.leases && r.leases[row.session].trial == t
          && row.skill == r.leases[row.session].skill && row.generation == r.leases[row.session].generation)
  }

  /** The i-th row of a trial was computed with the i-th split of the trial's root key. */
  ghost predicate NoiseInv(a: Store) {
    forall t, i :: t in a.rows && t in a.manifests && |a.manifests[t]| > 0 && 0 <= i < |a.rows[t]| ==>
      a.rows[t][i].noiseHash == OfNoise(KeyAfter(a.manifests[t][0].seed, i))
  }

  predicate RecordedFor(s: System, id: SessionId) {
    s.lock.Some? && s.At(s.lock.value) && s.Holder().InferRecorded? && s.Holder().req.session == id
  }

  /** Why a row of `id` may lack its answer: it is about to be checked, or the runtime is down. */
  predicate Excused(s: System, id: SessionId) {
    RecordedFor(s, id) || (s.rt.session != Some(id) && (s.rt.state == Failed || s.rt.state == Stopping))
  }

  /** The rows of a session are numbered 0, 1, ...; all but possibly the last are answered. */
  ghost predicate SequenceInv(s: System, id: SessionId)
    requires id in s.rt.leases
  {
    var rows := SessionRows(s.rt, id);
    var next := s.rt.leases[id].nextSequence;
    && (forall i :: 0 <= i < |rows| ==> rows[i].sequence == i)
    && next <= |rows| <= next + 1
    && OfSession(Answered(s.responses), id) == rows[..next]
    && (|rows| == next + 1 ==> Excused(s, id))
  }

  /** What holds of the one request in flight. */
  ghost predicate FlightInv(r: Runtime, pc: Pc)
    requires InFlight(pc)
  {
    var id := pc.req.session;
    && (r.state == Ready || r.state == Failed || r.state == Stopping)
    && (r.state == Ready ==> r.session == Some(id))
    && (r.trial.Some? ==> r.trial == Some(pc.req.trial))
    && id in r.leases
    && r.leases[id].trial == pc.req.trial
    && r.leases[id].skill == pc.req.skill && r.leases[id].generation == pc.req.generation
    && (pc.InferAdmitted? || pc.InferComputed? ==>
          r.leases[id].nextSequence == pc.req.sequence && |SessionRows(r, id)| == pc.req.sequence)
    && (pc.InferRecorded? ==>
          && r.leases[id].nextSequence == pc.req.sequence && |SessionRows(r, id)| == pc.req.sequence + 1
          && SessionRows(r, id)[pc.req.sequence] == pc.row
          && exists noise :: pc.row == RowFor(pc.req, noise, pc.actions))
    && (r.audit.active.Some? ==>
          var n := r.audit.active.value.requestCount;
          var seed := r.audit.active.value.seed;
          && (pc.InferAdmitted? || pc.InferRecorded? ==> r.backend.key == KeyAfter(seed, n))
          && (pc.InferComputed? ==> r.backend.key == KeyAfter(seed, n + 1) && pc.noise == OfNoise(KeyAfter(seed, n)))
          && (pc.InferLeaving? && r.state == Ready ==> r.backend.key == KeyAfter(seed, n)))
  }

  /** Between requests the key stands where the rows of the active trial leave it. */
  ghost predicate KeyInv(s: System)
    requires LockInv(s)
  {
    s.rt.state == Ready && s.rt.audit.active.Some? && !(s.lock.Some? && InFlight(s.Holder())) ==>
      s.rt.backend.key == KeyAfter(s.rt.audit.active.value.seed, s.rt.audit.active.value.requestCount)
  }

  /** Locks, threads and the runtime's own fields. */
  ghost predicate ControlInv(s: System) {
    && LockInv(s)
    && FlightCount(s)
    && SessionInv(s.rt)
    && TrialInv(s.rt)
    && ReadyInv(s.rt)
    && PrepareInv(s)
  }

  /** The request in flight and the key. */
  ghost predicate WorkInv(s: System)
    requires LockInv(s)
  {
    && (s.lock.Some? && InFlight(s.Holder()) ==> FlightInv(s.rt, s.Holder()))
    && KeyInv(s)
  }

  /** Answers go to sessions that exist. */
  ghost predicate AnswersInv(s: System) {
    forall i :: 0 <= i < |s.responses| ==> s.responses[i].row.session in s.rt.leases
  }

  /** What is on disk and what was answered. */
  ghost predicate LogInv(s: System) {
    && ManifestInv(s.rt.audit)
    && RowInv(s.rt)
    && NoiseInv(s.rt.audit)
    && (forall id :: id in s.rt.leases ==> SequenceInv(s, id))
    && AnswersInv(s)
  }

  ghost predicate Inv(s: System) {
    ControlInv(s) && LoadingInv(s) && WorkInv(s) && LogInv(s)
  }
}
