/** What validation at restart makes of a stored Goal: everything but its cursor always passes. */
module GoalStored {
  import opened Basics
  import opened RuntimeTypes
  import opened UsageNormalize
  import opened GoalTypes
  import opened GoalUsage
  import opened GoalMachine
  import opened GoalRuns
  import opened GoalSteps
  import B = GoalBooks
  import C = GoalConservation
  import E = GoalEvidence
  import V = GoalVersion
  import L = InputLedger

  /** A cursor minted for this Goal belongs to an objective revision it has had. */
  predicate CursorPast(g: Goal) {
    g.continuation.Some? && g.continuation.value.identity.goalId == g.goalId ==>
      g.continuation.value.identity.objectiveRevision <= g.objectiveRevision
  }

  /** What validation checks beside the account, the evidence and the cursor. */
  predicate Header(g: Goal, clock: nat) {
    && g.goalId != "" && g.objective != ""
    && 0 < g.objectiveRevision <= g.revision
    && g.tokenBudget != Some(0)
    && 0 < g.createdAt <= g.updatedAt <= clock
    && (g.pendingComplete.Some? ==> g.pendingComplete.value.turnId != NO_TURN)
    && (g.pendingUsage.Some? ==>
          g.pendingUsage.value.call.turnId == g.lastTurnId && g.createdAt <= g.pendingUsage.value.admittedAt <= g.updatedAt)
    && CursorPast(g)
  }

  /** A cursor was minted for a Goal this session knows, this one or the one before. */
  predicate CursorKnown(g: Goal, ids: set<string>) {
    g.continuation.Some? ==> g.continuation.value.identity.goalId in ids
  }

  /** One change of a Goal, seen through its header. */
  predicate Heads(g: Goal, n: Goal, now: nat) {
    && n.goalId == g.goalId && n.createdAt == g.createdAt && n.updatedAt == now && n.revision > g.revision
    && (n.objective == g.objective || n.objective != "")
    && (n.objectiveRevision == g.objectiveRevision || n.objectiveRevision == g.objectiveRevision + 1)
    && (n.tokenBudget == g.tokenBudget || n.tokenBudget != Some(0))
    && (n.pendingComplete.Some? ==> n.pendingComplete == g.pendingComplete || n.pendingComplete.value.turnId != NO_TURN)
    && (n.pendingUsage.Some? ==>
          || (n.pendingUsage == g.pendingUsage && n.lastTurnId == g.lastTurnId)
          || (n.pendingUsage.value.call.turnId == n.lastTurnId && n.pendingUsage.value.admittedAt == now))
    && (n.continuation.Some? ==>
          || (g.continuation.Some? && n.continuation.value.identity == g.continuation.value.identity)
          || (n.continuation.value.identity.goalId == n.goalId && n.continuation.value.identity.objectiveRevision == n.objectiveRevision))
  }

  lemma HeadsKeep(g: Goal, n: Goal, clock: nat, now: nat)
    requires Header(g, clock) && Heads(g, n, now) && now >= clock
    ensures Header(n, now)
  {}

  lemma HeadsKnown(g: Goal, n: Goal, now: nat, ids: set<string>)
    requires CursorKnown(g, ids) && Heads(g, n, now) && g.goalId in ids
    ensures CursorKnown(n, ids)
  {}

  lemma HeadsTwice(g: Goal, m: Goal, n: Goal, now: nat)
    requires Heads(g, m, now) && Heads(m, n, now) && m.objectiveRevision == g.objectiveRevision && m.lastTurnId == g.lastTurnId
    requires n.lastTurnId == m.lastTurnId && m.continuation == g.continuation && n.continuation == m.continuation
    requires m.objective == g.objective && m.tokenBudget == g.tokenBudget
    ensures Heads(g, n, now)
  {}

  /** Memory stays, or the Goal changes header by header; an unavailable one is no concern here. */
  predicate Turns(s: State, n: State, now: nat) {
    n.mem == s.mem || !n.mem.Live? || (s.mem.Live? && Heads(s.mem.goal, n.mem.goal, now))
  }

  // ---------------------------------------------------------------- control, turns and continuations

  lemma TransitionTurns(s: State, control: Control, code: string, built: Result<Goal, GoalError>, w: Writes, now: nat)
    requires built.Success? ==> s.mem.Live? && (built.value == s.mem.goal || (Heads(s.mem.goal, built.value, now) && built.value.continuation == s.mem.goal.continuation))
    ensures Turns(s, Transition(s, control, code, built, w).0, now)
  {
    hide Retire;
  }

  lemma ControlTurns(s: State, op: Op)
    requires op.EditOp? || op.PauseOp? || op.ResumeOp? || op.BudgetOp?
    ensures Turns(s, Step(s, op).0, op.now)
  {
    hide Turns, Transition, BudgetRemains;
    match op
    case EditOp(control, objective, now, w) =>
      TransitionTurns(s, control, "superseded-by-objective-edit", EditNext(s.mem, objective, now), w, now);
    case PauseOp(control, now, w) => TransitionTurns(s, control, "superseded-by-goal-pause", PauseNext(s.mem, now), w, now);
    case ResumeOp(control, now, w) =>
      TransitionTurns(s, control, "superseded-by-goal-resume", ResumeNext(s.mem, control.contained, now), w, now);
    case BudgetOp(control, budget, now, w) =>
      TransitionTurns(s, control, "superseded-by-budget-change", BudgetNext(s.mem, budget, now), w, now);
  }

  lemma BeginContinuationTurns(s: State, g: Goal, turnId: TurnId, item: L.Item, now: nat, w: Writes)
    requires s.mem == Live(g) && g.pendingUsage.None?
    ensures Turns(s, BeginContinuation(s, g, turnId, item, now, w).0, now)
  {
    hide Retire, L.AdmissionItem, ContinuationFits;
    CursorPresent(g, item, s.coord.scope, turnId);
  }

  lemma BeginTurns(s: State, op: Op)
    requires op.BeginOp?
    ensures Turns(s, BeginTurn(s, op.turnId, op.steering, op.item, op.boundary, op.now, op.w).0, op.now)
  {
    hide Retire, BeginContinuation;
    if op.item.Some? && s.mem.Live? && s.mem.goal.pendingUsage.None? {
      BeginContinuationTurns(s, s.mem.goal, op.turnId, op.item.value, op.now, op.w);
    }
  }

  lemma SettledHeads(g: Goal, turn: TurnRuntime, e: TerminalEvent, c: L.Coord, enabled: bool, now: nat)
    requires g.revision < MAX_U64
    ensures var n := Settled(g, turn, e, c, enabled, now); n.Success? ==> Heads(g, n.value, now)
  {
    hide Completes, ValidContinuation, BudgetRemains, StopInterval;
  }

  lemma TerminalTurns(s: State, op: Op)
    requires op.TerminalOp?
    ensures Turns(s, Terminal(s, op.event, op.enabled, op.now, op.w).0, op.now)
  {
    hide EnqueueCursor, Settled, Heads;
    if s.mem.Live? && s.turn.Some? && s.mem.goal.revision < MAX_U64 {
      SettledHeads(s.mem.goal, s.turn.value, op.event, s.coord, op.enabled, op.now);
    }
  }

  lemma EvidenceTurns(s: State, op: Op)
    requires op.CompletionOp? || op.BlockerOp?
    ensures op.CompletionOp? ==> Turns(s, RequestCompletion(s, op.goalId, op.objectiveRevision, op.turnId, op.now, op.ok).0, op.now)
    ensures op.BlockerOp? ==> Turns(s, ReportBlocker(s, op.goalId, op.objectiveRevision, op.turnId, op.key, op.reason, op.now, op.ok).0, op.now)
  {
    hide BlockerTurnsWith, StopInterval;
  }

  lemma WaitTurns(s: State, op: Op)
    requires op.OpenWaitOp? || op.CloseWaitOp?
    ensures op.OpenWaitOp? ==> Turns(s, OpenWait(s, op.reason, op.now, op.ok).0, op.now)
    ensures op.CloseWaitOp? ==> Turns(s, CloseWait(s, op.reason, op.now, op.ok).0, op.now)
  {
    hide StopInterval;
  }

  lemma CancelTurns(s: State, op: Op)
    requires op.CancelOp?
    ensures Turns(s, CancelPause(s, op.now, op.w).0, op.now)
  {
    hide Retire, StopInterval;
  }

  lemma PauseRestoredTurns(s: State, disposition: Disposition, reason: string, now: nat, w: Writes)
    requires Held(s.mem).Some? && Held(s.mem).value.continuation.Some?
    ensures Turns(s, PauseRestored(s, disposition, reason, now, w).0, now)
  {
    hide Retire, L.Settle;
  }

  lemma ReconcileTurns(s: State, op: Op)
    requires op.ReconcileOp?
    ensures Turns(s, ReconcileContinuation(s, op.found, op.disabled, op.now, op.w).0, op.now)
  {
    hide Retire, EnqueueCursor, L.Settle, L.ResolveDelivered, PauseRestored, Heads;
    if Held(s.mem).Some? && Held(s.mem).value.continuation.Some? && op.found.Some? {
      var cursor := Held(s.mem).value.continuation.value;
      var s1 := s.(coord := L.ResolveDelivered(s.coord, {ItemOf(cursor.identity)}, op.found.value).0);
      PauseRestoredTurns(s1, CursorDelivered, "transcript-receipt-recovered", op.now, op.w);
      PauseRestoredTurns(s1, if cursor.disposition == CursorDelivered then CursorDelivered else CursorRejected, "goal-capability-disabled", op.now, op.w);
      PauseRestoredTurns(s1, CursorRejected, "recovery-item-conflict", op.now, op.w);
    }
  }

  lemma OthersTurn(s: State, op: Op)
    requires op.AbandonOp? || op.DeliveredOp? || op.InputOp?
    ensures Turns(s, Step(s, op).0, op.now)
  {
    hide Transition, BeginTurn, RequestCompletion, ReportBlocker, OpenWait, CloseWait, Terminal, CancelPause, ReconcileContinuation;
  }

  lemma PlainTurns(s: State, op: Op)
    requires Plain(op)
    ensures Turns(s, Step(s, op).0, op.now)
  {
    hide Turns, Transition, BeginTurn, RequestCompletion, ReportBlocker, OpenWait, CloseWait, Terminal, CancelPause, ReconcileContinuation;
    if op.EditOp? || op.PauseOp? || op.ResumeOp? || op.BudgetOp? { ControlTurns(s, op); }
    else if op.AbandonOp? || op.DeliveredOp? || op.InputOp? { OthersTurn(s, op); }
    else if op.CompletionOp? || op.BlockerOp? { EvidenceTurns(s, op); }
    else if op.OpenWaitOp? || op.CloseWaitOp? { WaitTurns(s, op); }
    else if op.BeginOp? { BeginTurns(s, op); }
    else if op.TerminalOp? { TerminalTurns(s, op); }
    else if op.CancelOp? { CancelTurns(s, op); }
    else { ReconcileTurns(s, op); }
  }

  // ---------------------------------------------------------------- provider usage and restart

  /** Reconciliation changes nothing, or the header as one change does, with turn, objective and cursor kept. */
  lemma ReconcileHeads(g: Goal, loaded: Option<Loaded>, now: nat)
    ensures var r := Reconcile(g, loaded, now);
      if r.changed then Heads(g, r.goal, now) && Accounts(g, r.goal) else r.goal == g
  {
    hide Inspect, ValidRecord, Accounts;
    ReconcileAccounts(g, loaded, now);
  }

  lemma AdmitNextTurns(s: State, r: Reporter, roundId: string, attempt: Attempt, callId: string, now: nat, ok: bool)
    requires s.mem.Live? && CheckAdmission(s.mem, r).None?
    ensures Turns(s, AdmitNext(s, s.mem.goal, r, roundId, attempt, callId, now, ok).0, now)
    ensures var n := AdmitNext(s, s.mem.goal, r, roundId, attempt, callId, now, ok).0;
      n.mem.Live? && n.mem.goal.lastTurnId == s.mem.goal.lastTurnId && n.mem.goal.continuation == s.mem.goal.continuation
  {
    hide ValidAdmission, ValidSubject;
  }

  lemma AdmitTurns(s: State, r: Reporter, roundId: string, attempt: Attempt, callId: string, load: Load, now: nat, w: Writes)
    ensures Turns(s, Admit(s, r, roundId, attempt, callId, load, now, w).0, now)
  {
    hide Reconcile, AdmitNext, CheckAdmission, Heads, Accounts;
    if CheckAdmission(s.mem, r).None? {
      var rec := Reconcile(s.mem.goal, LoadLedger(s, load), now);
      ReconcileHeads(s.mem.goal, LoadLedger(s, load), now);
      var s1 := if rec.changed then Save(s, rec.goal) else s;
      AdmitNextTurns(s, r, roundId, attempt, callId, now, w.second);
      if CheckAdmission(s1.mem, r).None? {
        AdmitNextTurns(s1, r, roundId, attempt, callId, now, w.second);
        var n := AdmitNext(s1, s1.mem.goal, r, roundId, attempt, callId, now, w.second).0;
        if rec.changed && n.mem != s1.mem { TwiceAccounted(s.mem.goal, rec.goal, n.mem.goal, now); }
      }
    }
  }

  lemma TwiceAccounted(g: Goal, m: Goal, n: Goal, now: nat)
    requires Heads(g, m, now) && Accounts(g, m) && Heads(m, n, now) && n.lastTurnId == m.lastTurnId && n.continuation == m.continuation
    ensures Heads(g, n, now)
  {
    HeadsTwice(g, m, n, now);
  }

  lemma CallTurns(s: State, callId: string, usage: Option<Usage>, append: Append, now: nat, ok: bool)
    ensures Turns(s, RecordUsage(s, callId, usage, append).0, now)
    ensures Turns(s, CountUsage(s, callId, now, ok).0, now)
    ensures Turns(s, ReleaseCall(s, callId, now, ok).0, now)
    ensures Turns(s, MarkAmbiguous(s, callId, now, ok).0, now)
  {
    hide Normalize, ValidRecord;
  }

  lemma UsageTurns(s: State, op: Op)
    requires Billing(op)
    ensures Turns(s, Step(s, op).0, op.now)
  {
    hide Step, Admit, RecordUsage, CountUsage, ReleaseCall, MarkAmbiguous, Turns;
    StepOf(s, op);
    match op
    case AdmitOp(reporter, roundId, attempt, callId, load, now, w) => AdmitTurns(s, reporter, roundId, attempt, callId, load, now, w);
    case RecordOp(callId, usage, append, now) => CallTurns(s, callId, usage, append, now, true);
    case CountOp(callId, now, ok) => CallTurns(s, callId, None, Lost, now, ok);
    case ReleaseOp(callId, now, ok) => CallTurns(s, callId, None, Lost, now, ok);
    case AmbiguousOp(callId, now, ok) => CallTurns(s, callId, None, Lost, now, ok);
  }

  lemma RestoreHeader(disk: Goal, loaded: Option<Loaded>, clock: nat, now: nat)
    requires Header(disk, clock) && now >= clock
    ensures var mem := RestoreGoal(Some(disk), loaded, now); mem.Live? ==> Header(mem.goal, now)
  {
    hide Reconcile, ValidGoal, Accounts;
    ReconcileHeads(disk, loaded, now);
    var r := Reconcile(disk, loaded, now);
    if r.changed { HeadsKeep(disk, r.goal, clock, now); }
  }

  lemma ClearTurns(s: State, op: Op)
    requires op.ClearOp?
    ensures Turns(s, Clear(s, op.control, op.now, op.w).0, op.now)
  {
    hide Retire;
  }

  lemma CreateHeader(s: State, op: Op, ids: set<string>)
    requires op.CreateOp? && op.id != "" && op.id !in ids && op.now > 0 && (s.mem.Live? ==> CursorKnown(s.mem.goal, ids))
    ensures var n := Step(s, op).0; n.mem != s.mem ==> n.mem.Live? && Header(n.mem.goal, op.now) && CursorKnown(n.mem.goal, ids)
  {
    hide Step;
    CreateShape(s, op);
    V.CreateCursor(s, op);
    CreateInputs(s, op);
  }

  lemma CreateInputs(s: State, op: Op)
    requires op.CreateOp?
    ensures Step(s, op).0.mem != s.mem ==> op.objective != "" && op.budget != Some(0)
  {
    hide Retire, BeginTurn, RequestCompletion, ReportBlocker, OpenWait, CloseWait, Terminal, CancelPause, ReconcileContinuation,
      Admit, RecordUsage, CountUsage, ReleaseCall, MarkAmbiguous, Restart, Clear;
  }

  // ---------------------------------------------------------------- runs

  predicate Kept(g: Goal, h: History) {
    Header(g, h.clock) && CursorKnown(g, h.ids)
  }

  predicate StoredOk(w: World) {
    && (w.s.mem.Live? ==> Kept(w.s.mem.goal, w.h))
    && (w.s.disk.Some? ==> Kept(w.s.disk.value, w.h))
  }

  lemma KeptOn(g: Goal, h: History, n: History)
    requires Kept(g, h) && h.clock <= n.clock && h.ids <= n.ids
    ensures Kept(g, n)
  {}

  lemma MemTurns(s: State, op: Op)
    requires !op.CreateOp? && !op.RestartOp?
    ensures Turns(s, Step(s, op).0, op.now)
  {
    hide Step, Heads, Clear;
    StepOf(s, op);
    if Plain(op) { PlainTurns(s, op); } else if Billing(op) { UsageTurns(s, op); } else if op.ClearOp? { ClearTurns(s, op); }
  }

  lemma MemKept(w: World, op: Op)
    requires StoredOk(w) && B.BooksOk(w) && Allowed(w, op)
    ensures Next(w, op).s.mem.Live? ==> Kept(Next(w, op).s.mem.goal, Next(w, op).h)
  {
    hide Step, B.StateOk, Header, Heads, CursorKnown, RestoreGoal, Logged, FreeTime;
    var n := Next(w, op);
    if n.s.mem.Live? {
      if w.s.mem.Live? { KeptOn(w.s.mem.goal, w.h, n.h); }
      if op.CreateOp? {
        CreateHeader(w.s, op, w.h.ids);
        if n.s.mem != w.s.mem { WiderKnown(n.s.mem.goal, w.h.ids, n.h.ids); }
      }
      else if op.RestartOp? { RestartKept(w, op); }
      else {
        MemTurns(w.s, op);
        if n.s.mem != w.s.mem {
          HeadsKeep(w.s.mem.goal, n.s.mem.goal, w.h.clock, op.now);
          HeadsKnown(w.s.mem.goal, n.s.mem.goal, op.now, w.h.ids);
          WiderKnown(n.s.mem.goal, w.h.ids, n.h.ids);
        }
      }
    }
  }

  lemma WiderKnown(g: Goal, ids: set<string>, more: set<string>)
    requires CursorKnown(g, ids) && ids <= more
    ensures CursorKnown(g, more)
  {}

  lemma RestartKept(w: World, op: Op)
    requires StoredOk(w) && op.RestartOp? && op.now >= w.h.clock
    ensures Next(w, op).s.mem.Live? ==> Kept(Next(w, op).s.mem.goal, Next(w, op).h)
  {
    hide Step, Header, RestoreGoal, Logged, FreeTime;
    StepOf(w.s, op);
    if w.s.disk.Some? {
      RestoreHeader(w.s.disk.value, LoadLedger(w.s, op.load), w.h.clock, op.now);
      V.RestoredAhead(w.s.disk.value, LoadLedger(w.s, op.load), op.now);
    } else { V.RestoredNone(LoadLedger(w.s, op.load), op.now); }
  }

  lemma StoredNext(w: World, op: Op)
    requires StoredOk(w) && B.BooksOk(w) && Allowed(w, op)
    ensures StoredOk(Next(w, op)) && B.BooksOk(Next(w, op))
  {
    hide Step, B.BothSound, B.CallsOk, B.Known, Kept, Logged, FreeTime;
    var n := Next(w, op);
    B.NextKeeps(w, op);
    MemKept(w, op);
    B.DiskWritten(w.s, op);
    if w.s.disk.Some? { KeptOn(w.s.disk.value, w.h, n.h); }
    if w.s.mem.Live? { KeptOn(w.s.mem.goal, w.h, n.h); }
  }

  lemma {:induction false} StoredRun(w: World, ops: seq<Op>)
    requires StoredOk(w) && B.BooksOk(w) && E.EvidenceOk(w) && AllowedRun(w, ops)
    ensures StoredOk(Run(w, ops)) && B.BooksOk(Run(w, ops)) && E.EvidenceOk(Run(w, ops))
    decreases |ops|
  {
    hide StoredOk, B.BooksOk, E.EvidenceOk, Next, Allowed;
    if ops != [] {
      StoredNext(w, ops[0]);
      E.EvidenceNext(w, ops[0]);
      StoredRun(Next(w, ops[0]), ops[1..]);
    }
  }

  // ---------------------------------------------------------------- theorems

  predicate CursorFits(g: Goal) {
    g.continuation.Some? ==> BoundCursor(g, g.continuation.value)
  }

  lemma ValidBut(g: Goal, ledger: seq<Record>, log: seq<Event>, requests: set<(string, nat, TurnId)>, clock: nat)
    requires Header(g, clock) && B.Sound(g, ledger) && E.Evident(g, log, requests)
    ensures ValidGoal(g) <==> CursorFits(g)
  {
    hide BoundCursor, B.Balanced, E.TurnsSince, ValidAdmission;
  }

  lemma DiskValid(w: World)
    requires StoredOk(w) && B.BooksOk(w) && E.EvidenceOk(w) && w.s.disk.Some?
    ensures ValidGoal(w.s.disk.value) <==> CursorFits(w.s.disk.value)
  {
    hide Header, B.Sound, E.Evident, ValidGoal, CursorFits, B.CallsOk, B.Known;
    ValidBut(w.s.disk.value, w.s.ledger, w.h.diskLog, w.h.requests, w.h.clock);
  }

  lemma InitStored(c: L.Coord)
    ensures StoredOk(Init(c)) && B.BooksOk(Init(c)) && E.EvidenceOk(Init(c))
  {
    B.InitBooks(c);
    E.InitEvidence(c);
  }

  /**
   * After any run, a stored Goal passes validation at the next start exactly when its cursor, if it has one, still names its
   * objective revision, ordinal, terminal, budget and account.
   */
  lemma StoredGoalExact(c: L.Coord, ops: seq<Op>)
    requires AllowedRun(Init(c), ops) && Run(Init(c), ops).s.disk.Some?
    ensures var g := Run(Init(c), ops).s.disk.value; ValidGoal(g) <==> (g.continuation.Some? ==> BoundCursor(g, g.continuation.value))
  {
    hide Run, AllowedRun, StoredOk, B.BooksOk, E.EvidenceOk, ValidGoal, BoundCursor;
    InitStored(c);
    StoredRun(Init(c), ops);
    DiskValid(Run(Init(c), ops));
  }

  /** So it comes back available exactly then, short of the last two revisions. */
  lemma RestoreExact(c: L.Coord, ops: seq<Op>, loaded: Option<Loaded>, now: nat)
    requires AllowedRun(Init(c), ops)
    requires var disk := Run(Init(c), ops).s.disk; disk.Some? && disk.value.revision < MAX_U64 - 1
    ensures var g := Run(Init(c), ops).s.disk.value;
      var mem := RestoreGoal(Some(g), loaded, now);
      if g.continuation.Some? ==> BoundCursor(g, g.continuation.value) then mem.Live? else mem == Withheld(g)
  {
    hide Run, AllowedRun, ValidGoal, BoundCursor, Inspect, Apply;
    StoredGoalExact(c, ops);
    OneRevision(Run(Init(c), ops).s.disk.value, loaded, now);
  }

  lemma OneRevision(g: Goal, loaded: Option<Loaded>, now: nat)
    ensures Reconcile(g, loaded, now).goal.revision <= g.revision + 1
  {
    hide Inspect, ValidRecord;
  }

  lemma EditShape(s: State, op: Op)
    requires op.EditOp?
    ensures var (n, reply) := Step(s, op);
      reply == Done ==>
        && s.mem.Live? && n.mem.Live? && n.disk == Some(n.mem.goal) && n.mem.goal.goalId == s.mem.goal.goalId
        && n.mem.goal.objectiveRevision == s.mem.goal.objectiveRevision + 1
        && n.mem.goal.continuation.Some? == s.mem.goal.continuation.Some?
        && (n.mem.goal.continuation.Some? ==> n.mem.goal.continuation.value.identity == s.mem.goal.continuation.value.identity)
  {
    hide Retire, BeginTurn, RequestCompletion, ReportBlocker, OpenWait, CloseWait, Terminal, CancelPause, ReconcileContinuation,
      Admit, RecordUsage, CountUsage, ReleaseCall, MarkAmbiguous, Restart, Clear;
  }

  lemma EditedCursorUnbound(s: State, op: Op)
    requires op.EditOp? && Step(s, op).1 == Done && s.mem.Live? && CursorPast(s.mem.goal)
    ensures var n := Step(s, op).0; n.mem.Live? && (CursorFits(n.mem.goal) <==> n.mem.goal.continuation.None?)
  {
    hide Step, ValidContinuation;
    EditShape(s, op);
  }

  /**
   * After any run, an edit of the objective leaves a Goal that validation accepts exactly when it has no cursor: the
   * cursor, open or retired, is kept, and names the objective revision before.
   */
  lemma EditExact(c: L.Coord, ops: seq<Op>, op: Op)
    requires var w := Run(Init(c), ops); AllowedRun(Init(c), ops) && Allowed(w, op) && op.EditOp? && Step(w.s, op).1 == Done
    ensures var n := Step(Run(Init(c), ops).s, op).0; n.disk.Some? && (ValidGoal(n.disk.value) <==> n.disk.value.continuation.None?)
  {
    hide Run, AllowedRun, B.BooksOk, E.EvidenceOk, ValidGoal, CursorFits, Step, Logged, FreeTime;
    var w := Run(Init(c), ops);
    InitStored(c);
    StoredRun(Init(c), ops);
    StoredNext(w, op);
    E.EvidenceNext(w, op);
    EditShape(w.s, op);
    EditedCursorUnbound(w.s, op);
    DiskValid(Next(w, op));
  }

  // ---------------------------------------------------------------- nothing is lost at a crash

  /**
   * A crash between the ledger append and the aggregate loses nothing: a restart over a readable ledger brings the
   * Goal to the sum of its whole ledger exactly when that sum fits 64 bits.  When it does not, or when the outstanding
   * call left no record, the Goal is limited and still holds the admission.
   */
  lemma RestartCounts(c: L.Coord, ops: seq<Op>, op: Op)
    requires AllowedRun(Init(c), ops) && op.RestartOp? && op.load == Readable(false)
    requires var disk := Run(Init(c), ops).s.disk; disk.Some? && CursorFits(disk.value) && disk.value.revision < MAX_U64 - 1
    ensures var s, n := Run(Init(c), ops).s, Step(Run(Init(c), ops).s, op).0;
      var g, records := s.disk.value, B.Of(s.ledger, s.disk.value.goalId);
      && n.mem.Live? && n.mem.goal.goalId == g.goalId
      && (if B.Billed(records) <= MAX_U64 then n.mem.goal.usageLedgerRevision == |records| && n.mem.goal.tokensUsed == B.Billed(records)
          else n.mem.goal.usageLedgerRevision == |records| - 1 && n.mem.goal.tokensUsed == g.tokensUsed)
      && (n.mem.goal.pendingUsage.Some? <==> g.pendingUsage.Some? && (|records| == g.usageLedgerRevision || B.Billed(records) > MAX_U64))
      && (n.mem.goal.pendingUsage.Some? ==> n.mem.goal.pendingUsage == g.pendingUsage && n.mem.goal.status == UsageLimited)
  {
    hide Run, AllowedRun, Step, B.Known, B.CallsOk, B.Sound, B.Of, Reconcile, ValidGoal, BoundCursor;
    B.InitBooks(c);
    B.RunKeeps(Init(c), ops);
    StoredGoalExact(c, ops);
    var s := Run(Init(c), ops).s;
    StepOf(s, op);
    C.CleanReconcile(s.disk.value, s.ledger, op.now);
  }
}
