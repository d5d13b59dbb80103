/** Identities shared by the Goal and the runtime-input coordinator. */
module RuntimeTypes {
  import opened Basics

  datatype Scope = Scope(sessionId: string, threadId: string, agentId: string)

  datatype Status = Active | Paused | Blocked | UsageLimited | BudgetLimited | Complete

  datatype TerminalReason = Completed | Ended(reason: string)

  /** A turn is named by its caller, or derived from the continuation cursor that asked for it. */
  datatype TurnId = Turn(name: string) | ContinuationTurn(cursor: CursorIdentity)

  /**
   * The immutable part of a continuation cursor.  The source hashes exactly these fields into the
   * item, checkpoint and turn identities, so here the identity itself plays the part of the digest.
   */
  datatype CursorIdentity = CursorIdentity(
    goalId: string,
    objectiveRevision: nat,
    goalRevision: nat,
    goalStatus: Status,
    scope: Scope,
    predecessorTurn: TurnId,
    terminalSequence: nat,
    terminalReason: TerminalReason,
    terminalAt: nat,
    tokenBudget: Option<nat>,
    tokensUsed: nat,
    usageLedgerRevision: nat,
    ordinal: nat,
    runtimeRevision: nat)

  /** Runtime items are named by their caller, or derived from a continuation cursor. */
  datatype ItemId = Id(name: string) | ContinuationItem(cursor: CursorIdentity)

  const NO_TURN := Turn("")

  predicate BudgetRemains(tokenBudget: Option<nat>, tokensUsed: nat) {
    tokenBudget.Some? ==> tokenBudget.value > tokensUsed
  }

  /** The identity half of validateGoalContinuationCursor. */
  predicate ValidCursorIdentity(c: CursorIdentity) {
    && c.goalId != ""
    && c.scope.sessionId != "" && c.scope.threadId != "" && c.scope.agentId == ""
    && c.objectiveRevision > 0 && c.goalRevision > 0
    && c.goalStatus == Active
    && c.predecessorTurn != NO_TURN
    && c.terminalSequence > 0 && c.terminalReason == Completed && c.terminalAt > 0
    && BudgetRemains(c.tokenBudget, c.tokensUsed)
    && c.ordinal > 0
  }
}
