/** The Goal, its pending provider admission, its usage ledger and its continuation cursor. */
module GoalTypes {
  import opened Basics
  import opened RuntimeTypes
  import opened UsageNormalize

  datatype Disposition = CursorPending | CursorAdmitting | CursorRejected | CursorDelivered

  /** goalContinuationCursor: the item and turn identities are functions of `identity`. */
  datatype Continuation = Continuation(identity: CursorIdentity, disposition: Disposition, reason: string, at: nat)

  /** Who runs a provider call: the root session, or a descendant Agent of some generation. */
  datatype Subject = Subject(sessionId: string, threadId: string, agentId: string, generation: int)

  datatype Attempt = Attempt(requestId: string, attemptId: string, profile: string, attemptIndex: int, retryIndex: int)

  /** The identity fields an admission and its usage record share. */
  datatype CallIdentity = CallIdentity(
    goalId: string,
    objectiveRevision: nat,
    rootSessionId: string,
    rootThreadId: string,
    executing: Subject,
    turnId: TurnId,
    roundId: string,
    attempt: Attempt,
    callId: string)

  datatype Admission = Admission(ledgerRevision: nat, call: CallIdentity, admittedAt: nat)

  datatype Record = Record(ledgerRevision: nat, call: CallIdentity, tokens: Tokens)

  datatype CompletionRequest = CompletionRequest(turnId: TurnId, objectiveRevision: nat)

  datatype Goal = Goal(
    goalId: string,
    objective: string,
    objectiveRevision: nat,
    status: Status,
    reasonCode: string,
    revision: nat,
    tokenBudget: Option<nat>,
    tokensUsed: nat,
    usageLedgerRevision: nat,
    rootActiveMillis: nat,
    continuationOrdinal: nat,
    continuation: Option<Continuation>,
    lastTurnId: TurnId,
    lastTerminalSequence: nat,
    pendingComplete: Option<CompletionRequest>,
    pendingUsage: Option<Admission>,
    blockerKey: string,
    blockerTurns: seq<TurnId>,
    createdAt: nat,
    updatedAt: nat)

  /** goalExecutionIdentity with the subject it was handed to. */
  datatype Reporter = Reporter(
    goalId: string,
    objectiveRevision: nat,
    rootSessionId: string,
    rootThreadId: string,
    turnId: TurnId,
    subject: Subject,
    revoked: bool)

  datatype GoalError =
    | NotFound | AlreadyExists | GoalUnavailable | PlanConflict | GoalTerminal | NoBudget | UsageUnavailable
    | InFlight | CapabilityUnavailable | AdmissionPending | CoverageIncomplete | RevisionExhausted
    | LedgerExhausted | TokenOverflow | StaleBinding | InvalidIdentity | NotActive | RecordMismatch
    | CorruptLedger | StaleEvidence | StaleCall | GateBusy | InvalidInput | SequenceExhausted
    | OrdinalExhausted | StaleContinuation | ClaimRefused | PermanentlyRejected | ItemWriteFailed | WriteFailed

  predicate OpenCursor(c: Option<Continuation>) {
    c.Some? && (c.value.disposition == CursorPending || c.value.disposition == CursorAdmitting)
  }

  function ItemOf(c: CursorIdentity): (r: ItemId) {
    ContinuationItem(c)
  }

  function NextRevision(g: Goal, now: nat): (r: Result<Goal, GoalError>) {
    if g.revision == MAX_U64 then Failure(RevisionExhausted)
    else Success(g.(revision := g.revision + 1, updatedAt := now))
  }

  /** resetGoalTurnEvidence. */
  function Forget(g: Goal): (r: Goal) {
    g.(pendingComplete := None, blockerKey := "", blockerTurns := [])
  }

  function Restatus(g: Goal, status: Status, code: string): (r: Goal) {
    g.(status := status, reasonCode := code)
  }

  function Disposed(c: Continuation, disposition: Disposition, reason: string, at: nat): (r: Continuation) {
    c.(disposition := disposition, reason := reason, at := at)
  }

  /** validateGoalContinuationCursor. */
  predicate ValidContinuation(c: Continuation) {
    && ValidCursorIdentity(c.identity)
    && (if c.disposition == CursorPending then c.reason == "" && c.at == 0 else c.reason != "" && c.at > 0)
  }
}
