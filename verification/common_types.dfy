/** Names and small result types shared by the edge and the server models. */
module CommonTypes {
  type Skill = string
  type TrialId = string
  type SessionId = string
  type ThreadId = nat

  datatype Option<+T> = None | Some(value: T)

  /** The error codes the modelled code raises. The two faults of a rollout's budget, which the code raises as
      ACTION_INVALID and JOINT_GATE_FAILED with messages of their own, are kept apart from other uses of these codes. */
  datatype ErrorCode =
    | InvalidFieldValue
    | ResponseMismatch
    | SessionRequired
    | SessionInvalid
    | SessionExpired
    | SessionAlreadyActive
    | TrialAlreadyActive
    | TrialRequired
    | TrialMismatch
    | SkillMismatch
    | GenerationMismatch
    | SequenceMismatch
    | StateRejected
    | InferenceBusy
    | InferenceTimeout
    | PolicyFailed
    | ActionInvalid
    | ObservationStale
    | JointGateFailed
    | CheckerFailed
    | ApprovalRequired
    | PipelineFailed
    | AuditCommitFailed
    | ControlUnavailable
    | ServerFailed
    | ActionOverBudget
    | BudgetExhausted

  predicate BudgetFault(code: ErrorCode) {
    code == ActionOverBudget || code == BudgetExhausted
  }

  /** A call either returns a value or raises; `:-` propagates the raise. */
  datatype Outcome<+T> = Returned(value: T) | Raised(code: ErrorCode) {
    predicate IsFailure() { Raised? }

    function PropagateFailure<U>(): Outcome<U>
      requires Raised?
    {
      Raised(code)
    }

    function Extract(): T
      requires Returned?
    {
      value
    }
  }

  /** A splittable PRNG key: the root of a seed, or the key carried on after one more split. */
  datatype Key = Root(seed: int) | Carried(from: Key)

  /** The key after `n` splits of the root made from `seed`. */
  function KeyAfter(seed: int, n: nat): Key {
    if n == 0 then Root(seed) else Carried(KeyAfter(seed, n - 1))
  }

  /** Action rows; numbers are reals. */
  type Actions = seq<seq<real>>

  /** A digest stands for what was hashed: SHA-256 is taken to be collision free. */
  datatype Digest =
    | OfObservation(observation: int)
    | OfNoise(key: Key)
    | OfActions(actions: Actions)
    | OfRequest(
        session: SessionId,
        trial: TrialId,
        skill: Skill,
        generation: nat,
        sequence: nat,
        observationHash: Digest)

  /** A validated inference request envelope. */
  datatype Request = Request(
    session: SessionId,
    token: string,
    trial: TrialId,
    skill: Skill,
    generation: nat,
    sequence: nat,
    observation: int)
  {
    function Hash(): Digest {
      OfRequest(session, trial, skill, generation, sequence, OfObservation(observation))
    }
  }

  /** One line of the server's requests.jsonl. */
  datatype Row = Row(
    session: SessionId,
    trial: TrialId,
    skill: Skill,
    generation: nat,
    sequence: nat,
    requestHash: Digest,
    observationHash: Digest,
    noiseHash: Digest,
    actionHash: Digest)

  /** The row infer() builds for a request and a backend result. */
  function RowFor(req: Request, noise: Digest, actions: Actions): Row {
    Row(req.session, req.trial, req.skill, req.generation, req.sequence,
        req.Hash(), OfObservation(req.observation), noise, OfActions(actions))
  }

  /** An inference response: the identity and hashes of its row, the actions, and whether they may be published. */
  datatype Response = Response(row: Row, actions: Actions, publishable: bool)

  /** The response infer() builds: requests of kind `infer`, the only kind there is, are publishable. */
  function Reply(row: Row, actions: Actions): Response {
    Response(row, actions, true)
  }
}
