/** The three locks of the server, each taken and released on its own: the execution lock, the condition's lock and
    the audit store's lock. ServerSystem folds the last two into its steps; here they may be waited for like the
    first. */
module ServerLocks {
  import opened CommonTypes

  datatype Lock = Execution | Condition | Audit

  /** The order in which a thread may take them. */
  function Rank(l: Lock): nat {
    match l
    case Execution => 0
    case Condition => 1
    case Audit => 2
  }

  datatype Op = Take(lock: Lock) | Drop(lock: Lock)

  // ----- the lock operations of each call, on each way it can go -----

  /** `with self._condition:` around fields alone, and around a call of the audit store. */
  const SECTION: seq<Op> := [Take(Condition), Drop(Condition)]
  const AUDITED: seq<Op> := [Take(Condition), Take(Audit), Drop(Audit), Drop(Condition)]

  const RELEASE: seq<Op> := [Drop(Execution)]

  /** `ops` on the way to `rest`, if the call goes that way. */
  function When(c: bool, ops: seq<Op>, rest: seq<Op>): seq<Op> {
    if c then ops + rest else rest
  }

  /** Waiting on the condition lets go of its lock and takes it again. */
  function Waits(n: nat): (r: seq<Op>)
    ensures n > 0 ==> r == [Drop(Condition), Take(Condition)] + Waits(n - 1)
  {
    if n == 0 then [] else [Drop(Condition), Take(Condition)] + Waits(n - 1)
  }

  /** A call of PolicyRuntime, with the choices that decide its lock operations. Nested entry of a lock the thread
      already holds is not an operation: both inner locks are re-entrant. */
  datatype Call =
    | Simple                                                     // status, open_session, close_session
    | Audited(reaches: bool)                                     // end_trial, mark_transport_ambiguous, close
    | Prepare(accepted: bool, waits: nat, inTime: bool, loaded: bool)
    | Begin(inTime: bool, reaches: bool, raises: bool)
    | Infer(inTime: bool, admitted: bool, recorded: bool)
    | Abort(inTime: bool)

  function Path(c: Call): seq<Op> {
    match c
    case Simple => SECTION
    case Audited(reaches) => if reaches then AUDITED else SECTION
    case Prepare(accepted, waits, inTime, loaded) =>
      [Take(Condition)] + (Waits(waits) + ([Drop(Condition)] +
        if !accepted then [] else if !inTime then SECTION else [Take(Execution)] + Load(loaded)))
    case Begin(inTime, reaches, raises) =>
      if !inTime then []
      else [Take(Execution)] + ((if reaches then AUDITED else SECTION) + When(raises, SECTION, RELEASE))
    case Infer(inTime, admitted, recorded) =>
      if !inTime then [] else [Take(Execution)] + (SECTION + if admitted then Work(recorded) else RELEASE)
    case Abort(inTime) => if inTime then [Take(Execution)] + (AUDITED + RELEASE) else SECTION
  }

  /** prepare_skill with the execution lock: a failure is noted before the release, the commit comes after it. */
  function Load(loaded: bool): seq<Op> {
    if loaded then RELEASE + SECTION else SECTION + RELEASE
  }

  /** infer once admitted: the record, then the answer or the failure, then the count. */
  function Work(recorded: bool): seq<Op> {
    When(recorded, [Take(Audit), Drop(Audit)], SECTION + (SECTION + RELEASE))
  }

  /** With `held` in hand, the operations take locks upwards only, drop what is held, and end with nothing. */
  predicate Ordered(held: set<Lock>, ops: seq<Op>)
    decreases |ops|
  {
    if ops == [] then held == {}
    else
      match ops[0]
      case Take(l) => (forall h :: h in held ==> Rank(h) < Rank(l)) && Ordered(held + {l}, ops[1..])
      case Drop(l) => l in held && Ordered(held - {l}, ops[1..])
  }

  /** A balanced stretch can be put in front. */
  lemma Prepend(held: set<Lock>, a: Op, b: Op, rest: seq<Op>)
    requires a.Take? && b == Drop(a.lock) && a.lock !in held && forall h :: h in held ==> Rank(h) < Rank(a.lock)
    requires Ordered(held, rest)
    ensures Ordered(held, [a, b] + rest)
  {
    var ops := [a, b] + rest;
    assert ops[1..] == [b] + rest && ops[1..][1..] == rest;
    assert held + {a.lock} - {a.lock} == held;
  }

  lemma SectionFirst(held: set<Lock>, rest: seq<Op>)
    requires held <= {Execution} && Ordered(held, rest)
    ensures Ordered(held, SECTION + rest) && Ordered(held, AUDITED + rest)
    ensures Ordered(held, [Take(Audit), Drop(Audit)] + rest)
  {
    Prepend(held, Take(Condition), Drop(Condition), rest);
    Prepend(held, Take(Audit), Drop(Audit), rest);
    AuditedFirst(held, rest);
    hide Ordered;
  }

  lemma AuditedFirst(held: set<Lock>, rest: seq<Op>)
    requires held <= {Execution} && Ordered(held, rest)
    ensures Ordered(held, AUDITED + rest)
  {
    var inner := [Take(Audit), Drop(Audit)] + ([Drop(Condition)] + rest);
    assert ([Drop(Condition)] + rest)[1..] == rest && held + {Condition} - {Condition} == held;
    Prepend(held + {Condition}, Take(Audit), Drop(Audit), [Drop(Condition)] + rest);
    assert AUDITED + rest == [Take(Condition)] + inner && (AUDITED + rest)[1..] == inner;
  }

  lemma UnderExecution(ops: seq<Op>)
    requires Ordered({Execution}, ops)
    ensures Ordered({}, [Take(Execution)] + ops)
  {
    assert ([Take(Execution)] + ops)[1..] == ops;
    assert {} + {Execution} == {Execution};
  }

  lemma ReleaseFirst(rest: seq<Op>)
    requires Ordered({}, rest)
    ensures Ordered({Execution}, RELEASE + rest)
  {
    assert (RELEASE + rest)[1..] == rest && {Execution} - {Execution} == {};
  }

  lemma WaitFirst(more: seq<Op>)
    requires Ordered({Condition}, more)
    ensures Ordered({Condition}, [Drop(Condition), Take(Condition)] + more)
  {
    var ops := [Drop(Condition), Take(Condition)] + more;
    assert ops[1..] == [Take(Condition)] + more && ops[1..][1..] == more;
    assert {Condition} - {Condition} == {} && {} + {Condition} == {Condition};
  }

  lemma Regroup(a: seq<Op>, b: seq<Op>, c: seq<Op>)
    ensures a + b + c == a + (b + c)
  {
  }

  lemma {:induction false} WaitsFirst(n: nat, rest: seq<Op>)
    requires Ordered({Condition}, rest)
    ensures Ordered({Condition}, Waits(n) + rest)
  {
    hide Ordered, Waits;
    OneWaitFirst(n, rest);
    if n > 0 {
      WaitsFirst(n - 1, rest);
      WaitFirst(Waits(n - 1) + rest);
    }
  }

  lemma OneWaitFirst(n: nat, rest: seq<Op>)
    ensures Waits(n) + rest ==
      if n == 0 then rest else [Drop(Condition), Take(Condition)] + (Waits(n - 1) + rest)
  {
    if n > 0 {
      Regroup([Drop(Condition), Take(Condition)], Waits(n - 1), rest);
    } else {
      assert Waits(0) == [];
    }
  }

  lemma PrepareIsOrdered(waits: nat, rest: seq<Op>)
    requires Ordered({}, rest)
    ensures Ordered({}, [Take(Condition)] + (Waits(waits) + ([Drop(Condition)] + rest)))
  {
    assert ([Drop(Condition)] + rest)[1..] == rest && {Condition} - {Condition} == {};
    var inner := Waits(waits) + ([Drop(Condition)] + rest);
    WaitsFirst(waits, [Drop(Condition)] + rest);
    assert ([Take(Condition)] + inner)[1..] == inner && {} + {Condition} == {Condition};
  }

  /** Every call takes its locks only in the order execution, condition, audit, and gives them all back. */
  lemma EveryCallIsOrdered(c: Call)
    ensures Ordered({}, Path(c))
  {
    hide Ordered;
    Basics();
    match c
    case Simple =>
    case Audited(_) =>
    case Prepare(accepted, waits, inTime, loaded) =>
      SectionFirst({Execution}, RELEASE);
      ReleaseFirst(SECTION);
      UnderExecution(Load(loaded));
      PrepareIsOrdered(waits, if !accepted then [] else if !inTime then SECTION else [Take(Execution)] + Load(loaded));
    case Begin(inTime, reaches, raises) =>
      SectionFirst({Execution}, RELEASE);
      SectionFirst({Execution}, When(raises, SECTION, RELEASE));
      UnderExecution((if reaches then AUDITED else SECTION) + When(raises, SECTION, RELEASE));
    case Infer(inTime, admitted, recorded) =>
      SectionFirst({Execution}, RELEASE);
      SectionFirst({Execution}, SECTION + RELEASE);
      SectionFirst({Execution}, SECTION + (SECTION + RELEASE));
      SectionFirst({Execution}, if admitted then Work(recorded) else RELEASE);
      UnderExecution(SECTION + if admitted then Work(recorded) else RELEASE);
    case Abort(_) =>
      SectionFirst({Execution}, RELEASE);
      UnderExecution(AUDITED + RELEASE);
  }

  lemma Basics()
    ensures Ordered({}, []) && Ordered({}, SECTION) && Ordered({}, AUDITED) && Ordered({Execution}, RELEASE)
  {
    SectionFirst({}, []);
    ReleaseFirst([]);
    assert SECTION + [] == SECTION && AUDITED + [] == AUDITED && RELEASE + [] == RELEASE;
  }

  // ----- any number of such calls at once -----

  /** What a thread holds and what it still has to do. */
  datatype Thread = Thread(held: set<Lock>, todo: seq<Op>)

  datatype Locks = Locks(owner: map<Lock, ThreadId>, threads: map<ThreadId, Thread>)

  datatype Event = Enter(t: ThreadId, call: Call) | Do(t: ThreadId) | Leave(t: ThreadId)

  /** A free lock can be taken; a held one has to be waited for. */
  predicate Enabled(s: Locks, e: Event) {
    match e
    case Enter(t, _) => t !in s.threads
    case Do(t) => t in s.threads && CanDo(s, s.threads[t].todo)
    case Leave(t) => t in s.threads && s.threads[t].todo == []
  }

  predicate CanDo(s: Locks, todo: seq<Op>) {
    todo != [] && (todo[0].Take? ==> todo[0].lock !in s.owner)
  }

  function Apply(s: Locks, e: Event): Locks
    requires Enabled(s, e)
  {
    match e
    case Enter(t, call) => s.(threads := s.threads[t := Thread({}, Path(call))])
    case Leave(t) => s.(threads := s.threads - {t})
    case Do(t) =>
      var p := s.threads[t];
      match p.todo[0]
      case Take(l) => Locks(s.owner[l := t], s.threads[t := Thread(p.held + {l}, p.todo[1..])])
      case Drop(l) => Locks(s.owner - {l}, s.threads[t := Thread(p.held - {l}, p.todo[1..])])
  }

  function Run(events: seq<Event>): Option<Locks>
    decreases |events|
  {
    if events == [] then Some(Locks(map[], map[]))
    else
      var last := |events| - 1;
      var before := Run(events[..last]);
      if before.Some? && Enabled(before.value, events[last]) then Some(Apply(before.value, events[last])) else None
  }

  /** Locks are owned by exactly the threads that hold them, and every thread goes on in order. */
  ghost predicate Inv(s: Locks) {
    && (forall l :: l in s.owner ==> s.owner[l] in s.threads && l in s.threads[s.owner[l]].held)
    && (forall t, l :: t in s.threads && l in s.threads[t].held ==> l in s.owner && s.owner[l] == t)
    && (forall t :: t in s.threads ==> Ordered(s.threads[t].held, s.threads[t].todo))
  }

  lemma InvKept(s: Locks, e: Event)
    requires Inv(s) && Enabled(s, e)
    ensures Inv(Apply(s, e))
  {
    match e
    case Enter(_, call) => EveryCallIsOrdered(call);
    case Leave(_) =>
    case Do(t) =>
      if s.threads[t].todo[0].Take? {
        TakeKeepsInv(s, t);
      } else {
        DropKeepsInv(s, t);
      }
  }

  lemma TakeKeepsInv(s: Locks, t: ThreadId)
    requires Inv(s) && Enabled(s, Do(t)) && s.threads[t].todo[0].Take?
    ensures Inv(Apply(s, Do(t)))
  {
    var l := s.threads[t].todo[0].lock;
    assert Apply(s, Do(t)).owner == s.owner[l := t];
    assert Apply(s, Do(t)).threads == s.threads[t := Thread(s.threads[t].held + {l}, s.threads[t].todo[1..])];
  }

  lemma DropKeepsInv(s: Locks, t: ThreadId)
    requires Inv(s) && Enabled(s, Do(t)) && s.threads[t].todo[0].Drop?
    ensures Inv(Apply(s, Do(t)))
  {
    var l := s.threads[t].todo[0].lock;
    assert l in s.threads[t].held && s.owner[l] == t;
    assert Apply(s, Do(t)).owner == s.owner - {l};
    assert Apply(s, Do(t)).threads == s.threads[t := Thread(s.threads[t].held - {l}, s.threads[t].todo[1..])];
  }

  lemma {:induction false} RunInv(events: seq<Event>)
    requires Run(events).Some?
    ensures Inv(Run(events).value)
    decreases |events|
  {
    if events != [] {
      var last := |events| - 1;
      RunInv(events[..last]);
      InvKept(Run(events[..last]).value, events[last]);
    }
  }

  /** In every run a thread that takes a lock holds only locks of lower rank. */
  lemma LocksAreTakenInOrder(events: seq<Event>, s: Locks, t: ThreadId, l: Lock)
    requires Run(events) == Some(s) && t in s.threads && s.threads[t].todo != [] && s.threads[t].todo[0] == Take(l)
    ensures forall h :: h in s.owner && s.owner[h] == t ==> Rank(h) < Rank(l)
  {
    RunInv(events);
  }

  /** The owner of the highest lock taken, or any thread when none is. */
  lemma Foremost(s: Locks, t: ThreadId) returns (u: ThreadId)
    requires Inv(s) && t in s.threads
    ensures u in s.threads
    ensures forall l :: l in s.owner ==> exists h :: h in s.threads[u].held && Rank(l) <= Rank(h)
  {
    u := if Audit in s.owner then s.owner[Audit]
         else if Condition in s.owner then s.owner[Condition]
         else if Execution in s.owner then s.owner[Execution]
         else t;
    forall l | l in s.owner ensures exists h :: h in s.threads[u].held && Rank(l) <= Rank(h) {
      match l
      case Execution =>
      case Condition =>
      case Audit =>
    }
  }

  /** No deadlock over the three locks: while any call is in progress some thread can go on, without any timeout. */
  lemma SomebodyCanGoOn(events: seq<Event>, s: Locks, t: ThreadId)
    requires Run(events) == Some(s) && t in s.threads
    ensures exists u :: u in s.threads && (Enabled(s, Do(u)) || Enabled(s, Leave(u)))
  {
    RunInv(events);
    var u := Foremost(s, t);
    assert Ordered(s.threads[u].held, s.threads[u].todo);
  }
}
