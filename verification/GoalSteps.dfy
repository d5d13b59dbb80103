/** What each step may do to the Goal, stated once for the invariants that follow. */
module GoalSteps {
  import opened Basics
  import opened RuntimeTypes
  import opened UsageNormalize
  import opened GoalTypes
  import opened GoalUsage
  import opened GoalMachine
  import opened GoalRuns
  import L = InputLedger

  /** The part of a Goal that only provider usage moves. */
  predicate SameBooks(g: Goal, n: Goal) {
    && n.goalId == g.goalId
    && n.objectiveRevision >= g.objectiveRevision
    && n.tokensUsed == g.tokensUsed
    && n.usageLedgerRevision == g.usageLedgerRevision
    && n.pendingUsage == g.pendingUsage
    && (n.pendingUsage.Some? ==> n.objectiveRevision == g.objectiveRevision && n.tokenBudget == g.tokenBudget)
  }

  predicate Unblamed(g: Goal) {
    g.blockerKey == "" && g.blockerTurns == []
  }

  /** A completion request stays with its objective revision, or is dropped. */
  predicate KeepsRequest(g: Goal, n: Goal) {
    n.pendingComplete.None? || (n.pendingComplete == g.pendingComplete && n.objectiveRevision == g.objectiveRevision)
  }

  /** Blocker turns stay or are dropped, and a Goal with some does not become active. */
  predicate KeepsBlame(g: Goal, n: Goal) {
    Unblamed(n) || (n.blockerKey == g.blockerKey && n.blockerTurns == g.blockerTurns && (n.status == Active ==> g.status == Active))
  }

  /** A later state of the same Goal, with the books untouched. */
  predicate Moves(g: Goal, n: Goal) {
    && SameBooks(g, n)
    && n.revision > g.revision
    && (n.status == Active ==> BudgetRemains(n.tokenBudget, n.tokensUsed) || (g.status == Active && n.tokenBudget == g.tokenBudget))
  }

  predicate PendingCursor(c: Option<Continuation>) {
    c.Some? && c.value.disposition == CursorPending
  }

  /** The cursor is the old one, or none, with another disposition that is not pending. */
  predicate KeepsCursor(g: Goal, cursor: Option<Continuation>) {
    && (cursor == g.continuation || !PendingCursor(cursor))
    && (cursor.Some? ==> g.continuation.Some? && cursor.value.identity == g.continuation.value.identity)
  }

  /** No cursor becomes admitting. */
  predicate KeepsAdmission(g: Goal, cursor: Option<Continuation>) {
    cursor.Some? && cursor.value.disposition == CursorAdmitting ==> cursor == g.continuation
  }

  /** What the operation, beyond `Moves`, may do to evidence and status. */
  predicate Permits(op: Op, g: Goal, n: Goal) {
    && (op.CompletionOp? || KeepsRequest(g, n))
    && (op.BlockerOp? || KeepsBlame(g, n))
    && (n.status == Blocked ==> g.status == Blocked || op.BlockerOp?)
    && (n.status == Complete ==> g.status == Complete || (op.TerminalOp? && n.pendingUsage.None?))
    && (g.status == Complete ==> n.status == Complete || op.ReconcileOp?)
    && (Breaks(op) ==> Unblamed(n))
    && (op.TerminalOp? || KeepsCursor(g, n.continuation))
    && (op.BeginOp? || KeepsAdmission(g, n.continuation))
  }

  /** Nothing about provider calls changes. */
  predicate SameCalls(s: State, n: State) {
    n.ledger == s.ledger && n.gate == s.gate && n.calls == s.calls && n.uncertain == s.uncertain
  }

  /** An unavailable Goal keeps its stored record, whatever memory shows. */
  predicate Withholds(op: Op, s: State, n: State) {
    (op.ReconcileOp? || op.ClearOp?) && s.mem.Unavailable? && n.mem.Unavailable? && n.mem.raw == s.mem.raw && n.disk == Some(n.mem.raw) &&
    n.mem.shown.pendingUsage == s.mem.shown.pendingUsage
  }

  /** The Goal stays, or it moves on and the move is on disk, or it is unavailable and stays so. */
  predicate Quiet(op: Op, s: State, n: State) {
    && SameCalls(s, n)
    && ((n.mem == s.mem && n.disk == s.disk) || Withholds(op, s, n) ||
        (s.mem.Live? && n.mem.Live? && n.disk == Some(n.mem.goal) && Moves(s.mem.goal, n.mem.goal) && Permits(op, s.mem.goal, n.mem.goal)))
  }

  /** The steps that concern neither a provider call nor the Goal's existence. */
  predicate Plain(op: Op) {
    op.EditOp? || op.PauseOp? || op.ResumeOp? || op.BudgetOp? || op.BeginOp? || op.CompletionOp? || op.BlockerOp? || op.OpenWaitOp? ||
    op.CloseWaitOp? || op.AbandonOp? || op.TerminalOp? || op.DeliveredOp? || op.CancelOp? || op.ReconcileOp? || op.InputOp?
  }

  /** The cursor is no concern of `Moves` and `Permits`. */
  lemma WithCursor(op: Op, g: Goal, n: Goal, cursor: Option<Continuation>)
    requires Moves(g, n) && Permits(op, g, n) && (op.TerminalOp? || KeepsCursor(g, cursor)) && (op.BeginOp? || KeepsAdmission(g, cursor))
    ensures Moves(g, n.(continuation := cursor)) && Permits(op, g, n.(continuation := cursor))
  {
    hide BudgetRemains, Breaks;
  }

  lemma RetiredQuiet(op: Op, g: Goal, n: Goal, code: string)
    requires Moves(g, n) && Permits(op, g, n) && OpenCursor(g.continuation)
    ensures var retired := n.(continuation := Some(Disposed(g.continuation.value, CursorRejected, code, n.updatedAt)));
      Moves(g, retired) && Permits(op, g, retired)
  {
    hide Moves, Permits;
    WithCursor(op, g, n, Some(Disposed(g.continuation.value, CursorRejected, code, n.updatedAt)));
  }

  lemma TransitionQuiet(op: Op, s: State, control: Control, code: string, built: Result<Goal, GoalError>, w: Writes)
    requires built.Success? ==> s.mem.Live? && (built.value == s.mem.goal || (Moves(s.mem.goal, built.value) && Permits(op, s.mem.goal, built.value)))
    ensures Quiet(op, s, Transition(s, control, code, built, w).0)
  {
    hide Retire, Moves, Permits, Disposed, Withholds;
    if built.Success? && built.value != s.mem.goal && OpenCursor(s.mem.goal.continuation) { RetiredQuiet(op, s.mem.goal, built.value, code); }
  }

  lemma ControlQuiet(s: State, op: Op)
    requires op.EditOp? || op.PauseOp? || op.ResumeOp? || op.BudgetOp?
    ensures Quiet(op, s, Step(s, op).0)
  {
    hide Quiet, Transition;
    match op
    case EditOp(control, objective, now, w) =>
      TransitionQuiet(op, s, control, "superseded-by-objective-edit", EditNext(s.mem, objective, now), w);
    case PauseOp(control, now, w) => TransitionQuiet(op, s, control, "superseded-by-goal-pause", PauseNext(s.mem, now), w);
    case ResumeOp(control, now, w) =>
      TransitionQuiet(op, s, control, "superseded-by-goal-resume", ResumeNext(s.mem, control.contained, now), w);
    case BudgetOp(control, budget, now, w) =>
      TransitionQuiet(op, s, control, "superseded-by-budget-change", BudgetNext(s.mem, budget, now), w);
  }

  lemma NextMoves(op: Op, g: Goal, now: nat)
    requires NextRevision(g, now).Success? && !Breaks(op)
    ensures var n := NextRevision(g, now).value; Moves(g, n) && Permits(op, g, n)
    ensures var n := NextRevision(g, now).value; forall t :: Moves(g, n.(lastTurnId := t)) && Permits(op, g, n.(lastTurnId := t))
  {
    hide BudgetRemains;
  }

  lemma BeginContinuationQuiet(op: Op, s: State, g: Goal, turnId: TurnId, item: L.Item, now: nat, w: Writes)
    requires s.mem == Live(g) && op.BeginOp? && op.item.Some?
    ensures Quiet(op, s, BeginContinuation(s, g, turnId, item, now, w).0)
  {
    hide Retire, L.AdmissionItem, ContinuationFits, Moves, Permits;
    CursorPresent(g, item, s.coord.scope, turnId);
    if ContinuationFits(g, item, s.coord.scope, turnId) && NextRevision(g, now).Success? {
      var cursor, next := g.continuation.value, NextRevision(g, now).value;
      NextMoves(op, g, now);
      WithCursor(op, g, next, Some(Disposed(cursor, CursorRejected, "superseded-by-explicit-user-input", now)));
      WithCursor(op, g, next.(lastTurnId := turnId), Some(Disposed(cursor, CursorAdmitting, "continuation-turn-admitted", now)));
    }
  }

  lemma CursorPresent(g: Goal, item: L.Item, own: Scope, turnId: TurnId)
    ensures ContinuationFits(g, item, own, turnId) ==> g.continuation.Some?
  {}

  lemma TurnMoves(op: Op, g: Goal, turnId: TurnId, steering: bool, now: nat)
    requires op.BeginOp? && (Breaks(op) ==> steering) && TurnNext(g, turnId, steering, now).Success?
    ensures Moves(g, TurnNext(g, turnId, steering, now).value) && Permits(op, g, TurnNext(g, turnId, steering, now).value)
  {
    hide BudgetRemains;
  }

  lemma BeginQuiet(s: State, op: Op)
    requires op.BeginOp?
    ensures Quiet(op, s, BeginTurn(s, op.turnId, op.steering, op.item, op.boundary, op.now, op.w).0)
  {
    hide Retire, BeginContinuation, TurnNext, Moves, Permits;
    if op.item.Some? && s.mem.Live? { BeginContinuationQuiet(op, s, s.mem.goal, op.turnId, op.item.value, op.now, op.w); }
    if op.item.None? && s.mem.Live? && TurnNext(s.mem.goal, op.turnId, op.steering, op.now).Success? {
      TurnMoves(op, s.mem.goal, op.turnId, op.steering, op.now);
    }
  }

  lemma CompletesClean(g: Goal, turn: TurnRuntime, e: TerminalEvent, c: L.Coord, enabled: bool)
    ensures Completes(g, turn, e, c, enabled) ==> g.pendingUsage.None?
  {}

  lemma ClosedMoves(op: Op, g: Goal, turn: TurnRuntime, e: TerminalEvent, c: L.Coord, enabled: bool, now: nat)
    requires op.TerminalOp? && g.revision < MAX_U64
    ensures var n := Closed(g, turn, e, c, enabled, now); Moves(g, n) && Permits(op, g, n)
  {
    hide Completes, AddMillis, ElapsedMillis, BudgetRemains;
    forall k: Goal ensures Completes(k, turn, e, c, enabled) ==> k.pendingUsage.None? { CompletesClean(k, turn, e, c, enabled); }
  }

  lemma SettledMoves(op: Op, g: Goal, turn: TurnRuntime, e: TerminalEvent, c: L.Coord, enabled: bool, now: nat)
    requires op.TerminalOp? && g.revision < MAX_U64 && Settled(g, turn, e, c, enabled, now).Success?
    ensures var n := Settled(g, turn, e, c, enabled, now).value; Moves(g, n) && Permits(op, g, n)
  {
    hide Closed, ValidContinuation, BudgetRemains;
    ClosedMoves(op, g, turn, e, c, enabled, now);
  }

  lemma TerminalQuiet(s: State, op: Op)
    requires op.TerminalOp?
    ensures Quiet(op, s, Terminal(s, op.event, op.enabled, op.now, op.w).0)
  {
    hide EnqueueCursor, Settled, Moves, Permits;
    if s.mem.Live? && s.turn.Some? && s.mem.goal.revision < MAX_U64 &&
       Settled(s.mem.goal, s.turn.value, op.event, s.coord, op.enabled, op.now).Success? {
      SettledMoves(op, s.mem.goal, s.turn.value, op.event, s.coord, op.enabled, op.now);
    }
  }

  lemma StoppedMoves(op: Op, g: Goal, n: Goal, turn: TurnRuntime, now: nat)
    requires Moves(g, n) && Permits(op, g, n)
    ensures var m := StopInterval(n, turn, now).0; Moves(g, m) && Permits(op, g, m) && m.continuation == n.continuation
  {
    hide AddMillis, ElapsedMillis, BudgetRemains, Breaks;
  }

  lemma CancelQuiet(s: State, op: Op)
    requires op.CancelOp?
    ensures Quiet(op, s, CancelPause(s, op.now, op.w).0)
  {
    hide Retire, StopInterval, Moves, Permits;
    if s.mem.Live? && s.mem.goal.status == Active && NextRevision(s.mem.goal, op.now).Success? {
      var g := s.mem.goal;
      var paused := Forget(Restatus(NextRevision(g, op.now).value, Paused, "user-cancelled"));
      CancelMoves(op, g, paused);
      if s.turn.Some? { StoppedMoves(op, g, paused, s.turn.value, op.now); }
      var stopped := if s.turn.Some? then StopInterval(paused, s.turn.value, op.now).0 else paused;
      if OpenCursor(g.continuation) {
        WithCursor(op, g, stopped, Some(Disposed(g.continuation.value, CursorRejected, "superseded-by-user-cancel", op.now)));
      }
    }
  }

  lemma CancelMoves(op: Op, g: Goal, n: Goal)
    requires op.CancelOp? && g.status == Active
    requires n == Forget(Restatus(g, Paused, "user-cancelled")).(revision := g.revision + 1, updatedAt := n.updatedAt)
    ensures Moves(g, n) && Permits(op, g, n)
  {}

  lemma PauseRestoredQuiet(op: Op, s: State, disposition: Disposition, reason: string, now: nat, w: Writes)
    requires op.ReconcileOp? && Held(s.mem).Some? && Held(s.mem).value.continuation.Some? && (disposition == CursorRejected || disposition == CursorDelivered)
    ensures Quiet(op, s, PauseRestored(s, disposition, reason, now, w).0)
  {
    hide Retire, L.Settle;
  }

  lemma ReconcileQuiet(s: State, op: Op)
    requires op.ReconcileOp?
    ensures Quiet(op, s, ReconcileContinuation(s, op.found, op.disabled, op.now, op.w).0)
  {
    hide Retire, EnqueueCursor, L.Settle, L.ResolveDelivered, PauseRestored, Moves, Permits;
    if Held(s.mem).Some? && Held(s.mem).value.continuation.Some? && op.found.Some? {
      var cursor := Held(s.mem).value.continuation.value;
      var s1 := s.(coord := L.ResolveDelivered(s.coord, {ItemOf(cursor.identity)}, op.found.value).0);
      PauseRestoredQuiet(op, s1, CursorDelivered, "transcript-receipt-recovered", op.now, op.w);
      PauseRestoredQuiet(op, s1, if cursor.disposition == CursorDelivered then CursorDelivered else CursorRejected, "goal-capability-disabled", op.now, op.w);
      PauseRestoredQuiet(op, s1, CursorRejected, "recovery-item-conflict", op.now, op.w);
    }
  }

  lemma WaitQuiet(op: Op, s: State, reason: string, now: nat, ok: bool)
    requires op.OpenWaitOp? || op.CloseWaitOp?
    ensures Quiet(op, s, OpenWait(s, reason, now, ok).0)
    ensures Quiet(op, s, CloseWait(s, reason, now, ok).0)
  {}

  lemma EvidenceQuiet(s: State, op: Op)
    requires op.CompletionOp? || op.BlockerOp?
    ensures op.CompletionOp? ==> Quiet(op, s, RequestCompletion(s, op.goalId, op.objectiveRevision, op.turnId, op.now, op.ok).0)
    ensures op.BlockerOp? ==> Quiet(op, s, ReportBlocker(s, op.goalId, op.objectiveRevision, op.turnId, op.key, op.reason, op.now, op.ok).0)
  {
    hide BlockerTurnsWith;
  }

  lemma OthersQuiet(s: State, op: Op)
    requires op.AbandonOp? || op.DeliveredOp? || op.InputOp?
    ensures Quiet(op, s, Step(s, op).0)
  {
    hide BudgetRemains, RequestCompletion, ReportBlocker, OpenWait, CloseWait;
  }

  lemma PlainQuiet(s: State, op: Op)
    requires Plain(op)
    ensures Quiet(op, s, Step(s, op).0)
  {
    hide Quiet, Transition, BeginTurn, RequestCompletion, ReportBlocker, OpenWait, CloseWait, Terminal, CancelPause, ReconcileContinuation;
    if op.EditOp? || op.PauseOp? || op.ResumeOp? || op.BudgetOp? { ControlQuiet(s, op); }
    else if op.AbandonOp? || op.DeliveredOp? || op.InputOp? { OthersQuiet(s, op); }
    else if op.CompletionOp? || op.BlockerOp? { EvidenceQuiet(s, op); }
    else if op.OpenWaitOp? || op.CloseWaitOp? { WaitQuiet(op, s, op.reason, op.now, op.ok); }
    else if op.BeginOp? { BeginQuiet(s, op); }
    else if op.TerminalOp? { TerminalQuiet(s, op); }
    else if op.CancelOp? { CancelQuiet(s, op); }
    else { ReconcileQuiet(s, op); }
  }

  // ---------------------------------------------------------------- provider usage

  /** The steps of a provider call. */
  predicate Billing(op: Op) {
    op.AdmitOp? || op.RecordOp? || op.CountOp? || op.ReleaseOp? || op.AmbiguousOp?
  }

  /** A later state of the same Goal in which only the books, the status and the evidence may differ. */
  predicate Accounts(g: Goal, n: Goal) {
    && n.revision > g.revision
    && KeepsRequest(g, n) && KeepsBlame(g, n)
    && (n.status == g.status || n.status == UsageLimited || n.status == BudgetLimited)
    && (g.status == Complete && g.pendingUsage.None? ==> n.status == Complete && n.pendingUsage.None?)
    && n == g.(revision := n.revision, updatedAt := n.updatedAt, status := n.status, reasonCode := n.reasonCode, tokensUsed := n.tokensUsed,
               usageLedgerRevision := n.usageLedgerRevision, pendingUsage := n.pendingUsage, pendingComplete := n.pendingComplete,
               blockerKey := n.blockerKey, blockerTurns := n.blockerTurns)
  }

  /** The turn and the queue are left alone; the Goal stays, or its new account is on disk. */
  predicate AccountedFor(s: State, n: State) {
    && n.turn == s.turn && n.coord == s.coord
    && ((n.mem == s.mem && n.disk == s.disk) || (s.mem.Live? && n.mem.Live? && n.disk == Some(n.mem.goal) && Accounts(s.mem.goal, n.mem.goal)))
  }

  lemma AccountsTwice(g: Goal, m: Goal, n: Goal)
    requires Accounts(g, m) && Accounts(m, n)
    ensures Accounts(g, n)
  {}

  lemma ApplyAccounts(g: Goal, record: Record, now: nat)
    ensures var r := Apply(g, record, now); r.Success? ==> Accounts(g, r.value)
  {
    hide ValidRecord;
  }

  lemma ReconcileAccounts(g: Goal, loaded: Option<Loaded>, now: nat)
    ensures var r := Reconcile(g, loaded, now); if r.changed then Accounts(g, r.goal) else r.goal == g
  {
    hide Inspect, Apply;
    var r := Inspect(g, loaded);
    if r.Success? && g.pendingUsage.Some? && g.pendingUsage.value.ledgerRevision in r.value {
      ApplyAccounts(g, r.value[g.pendingUsage.value.ledgerRevision], now);
    }
  }

  lemma AdmitNextAccounts(s: State, r: Reporter, roundId: string, attempt: Attempt, callId: string, now: nat, ok: bool)
    requires s.mem.Live? && s.mem.goal.status == Active
    ensures AccountedFor(s, AdmitNext(s, s.mem.goal, r, roundId, attempt, callId, now, ok).0)
  {
    hide ValidAdmission;
  }

  lemma AdmitAccounts(s: State, r: Reporter, roundId: string, attempt: Attempt, callId: string, load: Load, now: nat, w: Writes)
    ensures AccountedFor(s, Admit(s, r, roundId, attempt, callId, load, now, w).0)
  {
    hide Reconcile, AdmitNext, CheckAdmission, Accounts;
    if CheckAdmission(s.mem, r).None? {
      var rec := Reconcile(s.mem.goal, LoadLedger(s, load), now);
      ReconcileAccounts(s.mem.goal, LoadLedger(s, load), now);
      var s1 := if rec.changed then Save(s, rec.goal) else s;
      AdmitNextAccounts(s, r, roundId, attempt, callId, now, w.second);
      if CheckAdmission(s1.mem, r).None? {
        AdmitNextAccounts(s1, r, roundId, attempt, callId, now, w.second);
        var n := AdmitNext(s1, s1.mem.goal, r, roundId, attempt, callId, now, w.second).0;
        if rec.changed && n.mem != s1.mem { AccountsTwice(s.mem.goal, rec.goal, n.mem.goal); }
      }
    }
  }

  lemma CallAccounts(s: State, callId: string, usage: Option<Usage>, append: Append, now: nat, ok: bool)
    ensures AccountedFor(s, RecordUsage(s, callId, usage, append).0)
    ensures AccountedFor(s, CountUsage(s, callId, now, ok).0)
    ensures AccountedFor(s, ReleaseCall(s, callId, now, ok).0)
    ensures AccountedFor(s, MarkAmbiguous(s, callId, now, ok).0)
  {
    hide Normalize, ValidRecord, Apply;
    if callId in s.calls && s.mem.Live? && s.calls[callId].phase.Recorded? { ApplyAccounts(s.mem.goal, s.calls[callId].phase.record, now); }
  }

  lemma UsageAccounts(s: State, op: Op)
    requires Billing(op)
    ensures AccountedFor(s, Step(s, op).0)
  {
    hide Step, Admit, RecordUsage, CountUsage, ReleaseCall, MarkAmbiguous, AccountedFor, Accounts;
    StepOf(s, op);
    match op
    case AdmitOp(reporter, roundId, attempt, callId, load, now, w) => AdmitAccounts(s, reporter, roundId, attempt, callId, load, now, w);
    case RecordOp(callId, usage, append, _) => CallAccounts(s, callId, usage, append, 0, true);
    case CountOp(callId, now, ok) => CallAccounts(s, callId, None, Lost, now, ok);
    case ReleaseOp(callId, now, ok) => CallAccounts(s, callId, None, Lost, now, ok);
    case AmbiguousOp(callId, now, ok) => CallAccounts(s, callId, None, Lost, now, ok);
  }

  // ---------------------------------------------------------------- the rest

  /** The step of each operation that is not `Plain`, by name. */
  lemma StepOf(s: State, op: Op)
    ensures op.ClearOp? ==> Step(s, op) == Clear(s, op.control, op.now, op.w)
    ensures op.AdmitOp? ==> Step(s, op) == Admit(s, op.reporter, op.roundId, op.attempt, op.callId, op.load, op.now, op.w)
    ensures op.RecordOp? ==> Step(s, op) == RecordUsage(s, op.callId, op.usage, op.append)
    ensures op.CountOp? ==> Step(s, op) == CountUsage(s, op.callId, op.now, op.ok)
    ensures op.ReleaseOp? ==> Step(s, op) == ReleaseCall(s, op.callId, op.now, op.ok)
    ensures op.AmbiguousOp? ==> Step(s, op) == MarkAmbiguous(s, op.callId, op.now, op.ok)
    ensures op.RestartOp? ==> Step(s, op) == Restart(s, op.coord, op.load, op.now, op.ok)
    ensures op.CheckpointOp? ==> Step(s, op) == Checkpoint(s, op.ok)
  {
    hide Transition, Clear, Admit, RecordUsage, CountUsage, ReleaseCall, MarkAmbiguous, Restart, Checkpoint, RequestCompletion, ReportBlocker,
      OpenWait, CloseWait, MarkDelivered, AbandonTurn, BeginTurn, Terminal, CancelPause, ReconcileContinuation;
  }

  /** The step of each operation of a turn, by name. */
  lemma TurnStepOf(s: State, op: Op)
    ensures op.BeginOp? ==> Step(s, op) == BeginTurn(s, op.turnId, op.steering, op.item, op.boundary, op.now, op.w)
    ensures op.BlockerOp? ==> Step(s, op) == ReportBlocker(s, op.goalId, op.objectiveRevision, op.turnId, op.key, op.reason, op.now, op.ok)
    ensures op.CompletionOp? ==> Step(s, op) == RequestCompletion(s, op.goalId, op.objectiveRevision, op.turnId, op.now, op.ok)
    ensures op.TerminalOp? ==> Step(s, op) == Terminal(s, op.event, op.enabled, op.now, op.w)
    ensures op.ReconcileOp? ==> Step(s, op) == ReconcileContinuation(s, op.found, op.disabled, op.now, op.w)
    ensures op.OpenWaitOp? ==> Step(s, op) == OpenWait(s, op.reason, op.now, op.ok)
    ensures op.CloseWaitOp? ==> Step(s, op) == CloseWait(s, op.reason, op.now, op.ok)
    ensures op.DeliveredOp? ==> Step(s, op) == MarkDelivered(s, op.itemId, op.turnId, op.now, op.ok)
    ensures op.CancelOp? ==> Step(s, op) == CancelPause(s, op.now, op.w)
    ensures op.AbandonOp? ==> Step(s, op) == AbandonTurn(s, op.turnId)
  {
    hide Transition, Clear, Admit, RecordUsage, CountUsage, ReleaseCall, MarkAmbiguous, Restart, Checkpoint, RequestCompletion, ReportBlocker,
      OpenWait, CloseWait, MarkDelivered, AbandonTurn, BeginTurn, Terminal, CancelPause, ReconcileContinuation;
  }

  /** Clearing keeps the Goal, moves it on with its cursor rejected, or removes it. */
  lemma ClearShape(s: State, op: Op)
    requires op.ClearOp?
    ensures var n := Clear(s, op.control, op.now, op.w).0;
      && SameCalls(s, n)
      && (Quiet(op, s, n) || (n.mem == Empty && n.disk == None && n.turn == None))
  {
    hide Retire, Moves, Permits, Keep;
    if Held(s.mem).Some? && OpenCursor(Held(s.mem).value.continuation) && NextRevision(Held(s.mem).value, op.now).Success? {
      var g := Held(s.mem).value;
      var retired := Disposed(g.continuation.value, CursorRejected, "superseded-by-goal-clear", op.now);
      NextMoves(op, g, op.now);
      WithCursor(op, g, NextRevision(g, op.now).value, Some(retired));
      KeepQuiet(op, s, NextRevision(g, op.now).value.(continuation := Some(retired)));
    }
  }

  /** A Goal that moves on is kept, whether or not it is available. */
  lemma KeepQuiet(op: Op, s: State, n: Goal)
    requires (op.ReconcileOp? || op.ClearOp?) && Held(s.mem).Some? && Moves(Held(s.mem).value, n) && Permits(op, Held(s.mem).value, n)
    ensures forall c :: Quiet(op, s, Keep(s, n).(coord := c))
    ensures SameCalls(s, Keep(s, n))
  {
    hide Permits, BudgetRemains;
  }

  /** Creating replaces no Goal, or a completed one. */
  lemma CreateShape(s: State, op: Op)
    requires op.CreateOp?
    ensures var n := Step(s, op).0;
      && SameCalls(s, n) && n.turn == s.turn
      && ((n.mem == s.mem && n.disk == s.disk) ||
          (s.turn.None? && (s.mem.Empty? || (s.mem.Live? && s.mem.goal.status == Complete)) && n.mem.Live? && n.disk == Some(n.mem.goal) &&
           exists c :: n.mem.goal == Goal(op.id, op.objective, 1, Active, "", 1, op.budget, 0, 0, 0, 0, c, NO_TURN, 0, None, None, "", [], op.now, op.now)))
  {
    hide Retire, BudgetRemains, RequestCompletion, ReportBlocker, OpenWait, CloseWait, MarkDelivered, AbandonTurn, BeginTurn, Terminal, CancelPause,
      ReconcileContinuation, Admit, RecordUsage, CountUsage, ReleaseCall, MarkAmbiguous, Restart, Clear;
    var n := Step(s, op).0;
    if n.mem != s.mem {
      assert n.mem.goal == Goal(op.id, op.objective, 1, Active, "", 1, op.budget, 0, 0, 0, 0, n.mem.goal.continuation, NO_TURN, 0, None, None, "", [], op.now, op.now);
    }
  }
}
