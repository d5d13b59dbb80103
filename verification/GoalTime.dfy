/** Active time: what each step does to the turn and to the Goal's counter, and the bound over whole runs. */
module GoalTime {
  import opened Basics
  import opened RuntimeTypes
  import opened GoalTypes
  import opened GoalUsage
  import opened GoalMachine
  import opened GoalRuns
  import opened GoalSteps
  import L = InputLedger

  /** The counter stays. */
  predicate SameRoot(s: State, n: State) {
    s.mem.Live? && n.mem.Live? ==> n.mem.goal.rootActiveMillis == s.mem.goal.rootActiveMillis
  }

  /** The running interval, if any, has been added to the counter. */
  predicate Stopped(s: State, n: State, now: nat) {
    s.mem.Live? && n.mem.Live? && s.turn.Some? &&
    n.mem.goal.rootActiveMillis == StopInterval(s.mem.goal, s.turn.value, now).0.rootActiveMillis
  }

  /** The turn stays; ends; starts; halts its interval; or closes a wait. */
  predicate Ticks(op: Op, s: State, n: State) {
    || (n.turn == s.turn && SameRoot(s, n))
    || (s.turn.Some? && n.turn.None? && (SameRoot(s, n) || Stopped(s, n, op.now)))
    || (&& op.BeginOp? && s.turn.None? && n.turn.Some? && n.turn.value.activeSince == Some(op.now) && n.turn.value.waiting == {}
        && SameRoot(s, n) && n.mem.Live? && !PendingCursor(n.mem.goal.continuation))
    || (s.turn.Some? && n.turn.Some? && n.turn.value.activeSince.None? && (SameRoot(s, n) || Stopped(s, n, op.now)))
    || (&& s.turn.Some? && n.turn.Some? && s.turn.value.waiting != {} && SameRoot(s, n)
        && (n.turn.value.activeSince == s.turn.value.activeSince || (n.turn.value.waiting == {} && n.turn.value.activeSince == Some(op.now))))
  }

  lemma TransitionTicks(op: Op, s: State, control: Control, code: string, built: Result<Goal, GoalError>, w: Writes)
    requires built.Success? && s.mem.Live? ==> built.value.rootActiveMillis == s.mem.goal.rootActiveMillis
    ensures Ticks(op, s, Transition(s, control, code, built, w).0)
  {
    hide Retire, StopInterval;
  }

  lemma ControlTicks(s: State, op: Op)
    requires op.EditOp? || op.PauseOp? || op.ResumeOp? || op.BudgetOp?
    ensures Ticks(op, s, Step(s, op).0)
  {
    hide Ticks, Transition, BudgetRemains;
    match op
    case EditOp(control, objective, now, w) =>
      TransitionTicks(op, s, control, "superseded-by-objective-edit", EditNext(s.mem, objective, now), w);
    case PauseOp(control, now, w) => TransitionTicks(op, s, control, "superseded-by-goal-pause", PauseNext(s.mem, now), w);
    case ResumeOp(control, now, w) =>
      TransitionTicks(op, s, control, "superseded-by-goal-resume", ResumeNext(s.mem, control.contained, now), w);
    case BudgetOp(control, budget, now, w) =>
      TransitionTicks(op, s, control, "superseded-by-budget-change", BudgetNext(s.mem, budget, now), w);
  }

  lemma BeginContinuationTicks(op: Op, s: State, g: Goal, turnId: TurnId, item: L.Item, w: Writes)
    requires s.mem == Live(g) && s.turn.None? && op.BeginOp?
    ensures Ticks(op, s, BeginContinuation(s, g, turnId, item, op.now, w).0)
  {
    hide Retire, L.AdmissionItem, ContinuationFits, StopInterval;
    CursorPresent(g, item, s.coord.scope, turnId);
  }

  lemma BeginTicks(s: State, op: Op)
    requires op.BeginOp?
    ensures Ticks(op, s, BeginTurn(s, op.turnId, op.steering, op.item, op.boundary, op.now, op.w).0)
  {
    hide Retire, BeginContinuation, StopInterval;
    if op.item.Some? && s.mem.Live? && s.turn.None? { BeginContinuationTicks(op, s, s.mem.goal, op.turnId, op.item.value, op.w); }
  }

  lemma SettledTicks(g: Goal, turn: TurnRuntime, e: TerminalEvent, c: L.Coord, enabled: bool, now: nat)
    requires g.revision < MAX_U64
    ensures var n := Settled(g, turn, e, c, enabled, now); n.Success? ==> n.value.rootActiveMillis == StopInterval(g, turn, now).0.rootActiveMillis
  {
    hide Completes, ValidContinuation, BudgetRemains, AddMillis, ElapsedMillis;
  }

  lemma TerminalTicks(s: State, op: Op)
    requires op.TerminalOp?
    ensures Ticks(op, s, Terminal(s, op.event, op.enabled, op.now, op.w).0)
  {
    hide EnqueueCursor, Settled, StopInterval;
    if s.mem.Live? && s.turn.Some? && s.mem.goal.revision < MAX_U64 {
      SettledTicks(s.mem.goal, s.turn.value, op.event, s.coord, op.enabled, op.now);
    }
  }

  lemma CancelTicks(s: State, op: Op)
    requires op.CancelOp?
    ensures Ticks(op, s, CancelPause(s, op.now, op.w).0)
  {
    hide Retire, AddMillis, ElapsedMillis;
  }

  lemma PauseRestoredTicks(op: Op, s: State, disposition: Disposition, reason: string, now: nat, w: Writes)
    requires Held(s.mem).Some? && Held(s.mem).value.continuation.Some?
    ensures Ticks(op, s, PauseRestored(s, disposition, reason, now, w).0)
  {
    hide Retire, L.Settle, StopInterval;
  }

  lemma ReconcileTicks(s: State, op: Op)
    requires op.ReconcileOp?
    ensures Ticks(op, s, ReconcileContinuation(s, op.found, op.disabled, op.now, op.w).0)
  {
    hide Retire, EnqueueCursor, L.Settle, L.ResolveDelivered, PauseRestored, StopInterval;
    if Held(s.mem).Some? && Held(s.mem).value.continuation.Some? && op.found.Some? {
      var cursor := Held(s.mem).value.continuation.value;
      var s1 := s.(coord := L.ResolveDelivered(s.coord, {ItemOf(cursor.identity)}, op.found.value).0);
      PauseRestoredTicks(op, s1, CursorDelivered, "transcript-receipt-recovered", op.now, op.w);
      PauseRestoredTicks(op, s1, if cursor.disposition == CursorDelivered then CursorDelivered else CursorRejected, "goal-capability-disabled", op.now, op.w);
      PauseRestoredTicks(op, s1, CursorRejected, "recovery-item-conflict", op.now, op.w);
    }
  }

  lemma OpenWaitTicks(s: State, op: Op)
    requires op.OpenWaitOp?
    ensures Turned(s.turn) ==> Ticks(op, s, OpenWait(s, op.reason, op.now, op.ok).0)
  {
    hide AddMillis, ElapsedMillis;
  }

  lemma CloseWaitTicks(s: State, op: Op)
    requires op.CloseWaitOp?
    ensures Ticks(op, s, CloseWait(s, op.reason, op.now, op.ok).0)
  {
    hide AddMillis, ElapsedMillis;
  }

  lemma EvidenceTicks(s: State, op: Op)
    requires op.CompletionOp? || op.BlockerOp?
    ensures op.CompletionOp? ==> Ticks(op, s, RequestCompletion(s, op.goalId, op.objectiveRevision, op.turnId, op.now, op.ok).0)
    ensures op.BlockerOp? ==> Ticks(op, s, ReportBlocker(s, op.goalId, op.objectiveRevision, op.turnId, op.key, op.reason, op.now, op.ok).0)
  {
    hide BlockerTurnsWith, AddMillis, ElapsedMillis;
  }

  lemma OthersTick(s: State, op: Op)
    requires op.AbandonOp? || op.DeliveredOp? || op.InputOp?
    ensures Ticks(op, s, Step(s, op).0)
  {
    hide Transition, BeginTurn, RequestCompletion, ReportBlocker, OpenWait, CloseWait, Terminal, CancelPause, ReconcileContinuation, StopInterval;
  }

  /** An open wait means no running interval. */
  predicate Turned(turn: Option<TurnRuntime>) {
    turn.Some? && turn.value.waiting != {} ==> turn.value.activeSince.None?
  }

  lemma PlainTicks(s: State, op: Op)
    requires Plain(op) && Turned(s.turn)
    ensures Ticks(op, s, Step(s, op).0)
  {
    hide Ticks, Transition, BeginTurn, RequestCompletion, ReportBlocker, OpenWait, CloseWait, Terminal, CancelPause, ReconcileContinuation;
    if op.EditOp? || op.PauseOp? || op.ResumeOp? || op.BudgetOp? { ControlTicks(s, op); }
    else if op.AbandonOp? || op.DeliveredOp? || op.InputOp? { OthersTick(s, op); }
    else if op.CompletionOp? || op.BlockerOp? { EvidenceTicks(s, op); }
    else if op.OpenWaitOp? { OpenWaitTicks(s, op); }
    else if op.CloseWaitOp? { CloseWaitTicks(s, op); }
    else if op.BeginOp? { BeginTicks(s, op); }
    else if op.TerminalOp? { TerminalTicks(s, op); }
    else if op.CancelOp? { CancelTicks(s, op); }
    else { ReconcileTicks(s, op); }
  }

  // ---------------------------------------------------------------- the bound

  function Running(turn: Option<TurnRuntime>, now: nat): (r: nat) {
    if turn.Some? && turn.value.activeSince.Some? && turn.value.activeSince.value <= now then now - turn.value.activeSince.value else 0
  }

  /** The counter together with the running interval fits in the free time. */
  predicate Within(mem: Slot, turn: Option<TurnRuntime>, clock: nat, free: nat) {
    && Turned(turn)
    && (turn.Some? && turn.value.activeSince.Some? ==> turn.value.activeSince.value <= clock)
    && (mem.Live? ==> mem.goal.rootActiveMillis * NANOS_PER_MILLI + Running(turn, clock) <= free && mem.goal.rootActiveMillis <= MAX_I64)
  }

  predicate DiskWithin(disk: Option<Goal>, free: nat) {
    disk.Some? ==> disk.value.rootActiveMillis * NANOS_PER_MILLI <= free && disk.value.rootActiveMillis <= MAX_I64
  }

  predicate TimeOk(w: World) {
    Within(w.s.mem, w.s.turn, w.h.clock, w.h.free) && DiskWithin(w.s.disk, w.h.free) && DiskWithin(Persisted(w.s.mem), w.h.free)
  }

  /** Milliseconds are truncated, so an interval adds no more than it lasted. */
  lemma StopWithin(g: Goal, turn: TurnRuntime, now: nat)
    requires g.rootActiveMillis <= MAX_I64 && (turn.activeSince.Some? ==> turn.activeSince.value <= now)
    ensures var root := StopInterval(g, turn, now).0.rootActiveMillis;
      root * NANOS_PER_MILLI <= g.rootActiveMillis * NANOS_PER_MILLI + Running(Some(turn), now) && root <= MAX_I64
  {}

  lemma FreeCovers(w: World, now: nat)
    requires TimeOk(w) && now >= w.h.clock
    ensures var free := FreeTime(w.h, w.s, now);
      Within(w.s.mem, w.s.turn, now, free) && DiskWithin(w.s.disk, free) && DiskWithin(Persisted(w.s.mem), free)
  {}

  lemma TickWithin(op: Op, s: State, n: State, free: nat)
    requires Within(s.mem, s.turn, op.now, free) && Ticks(op, s, n) && (n.mem == s.mem || (s.mem.Live? == n.mem.Live?))
    ensures Within(n.mem, n.turn, op.now, free)
  {
    hide StopInterval, PendingCursor, Running;
    RunningIs(s.turn, op.now);
    RunningIs(n.turn, op.now);
    if s.turn.Some? && s.mem.Live? { StopWithin(s.mem.goal, s.turn.value, op.now); }
  }

  /** No interval, or one that starts now, adds nothing. */
  lemma RunningIs(turn: Option<TurnRuntime>, now: nat)
    ensures turn.None? || turn.value.activeSince.None? || turn.value.activeSince == Some(now) ==> Running(turn, now) == 0
  {}

  lemma LiveWithin(mem: Slot, turn: Option<TurnRuntime>, clock: nat, free: nat)
    requires Within(mem, turn, clock, free) && mem.Live?
    ensures DiskWithin(Persisted(mem), free)
  {}

  /** The same Goal, or the same stored record. */
  predicate SameStored(a: Slot, b: Slot) {
    SameGoal(a, b) || (Persisted(a) == Persisted(b) && a.Live? == b.Live?)
  }

  /** A step other than creating and restarting ticks, or removes the Goal. */
  lemma TicksOf(s: State, op: Op)
    requires Turned(s.turn) && !op.CreateOp? && !op.RestartOp?
    ensures var n := Step(s, op).0;
      || (Ticks(op, s, n) && SameStored(s.mem, n.mem) && (n.disk == s.disk || n.disk == Persisted(n.mem)))
      || (n.mem == Empty && n.disk == None && n.turn == None)
  {
    hide Step, StopInterval, Permits, KeepsRequest, KeepsBlame, Ticks, Clear, PendingCursor;
    StepOf(s, op);
    if Plain(op) { PlainTicks(s, op); PlainQuiet(s, op); }
    else if Billing(op) { UsageAccounts(s, op); AccountsTicks(op, s, Step(s, op).0); }
    else if op.ClearOp? { ClearShape(s, op); ClearTicks(s, op); }
    else { AccountsTicks(op, s, Step(s, op).0); }
  }

  lemma AccountsTicks(op: Op, s: State, n: State)
    requires n.turn == s.turn && (n.mem == s.mem || (s.mem.Live? && n.mem.Live? && Accounts(s.mem.goal, n.mem.goal)))
    ensures Ticks(op, s, n)
  {
    hide StopInterval, KeepsRequest, KeepsBlame, PendingCursor;
  }

  lemma ClearTicks(s: State, op: Op)
    requires op.ClearOp?
    ensures var n := Clear(s, op.control, op.now, op.w).0; Ticks(op, s, n) || (n.mem == Empty && n.disk == None && n.turn == None)
  {
    hide Retire, StopInterval, PendingCursor;
  }

  lemma LiveNext(w: World, op: Op)
    requires TimeOk(w) && Allowed(w, op) && !op.CreateOp? && !op.RestartOp?
    ensures TimeOk(Next(w, op))
  {
    hide Step, Logged, FreeTime, Ticks, Running, NANOS_PER_MILLI;
    var n := Next(w, op);
    FreeCovers(w, op.now);
    TicksOf(w.s, op);
    if Ticks(op, w.s, n.s) && SameStored(w.s.mem, n.s.mem) {
      TickWithin(op, w.s, n.s, n.h.free);
      if n.s.mem.Live? { LiveWithin(n.s.mem, n.s.turn, op.now, n.h.free); }
    }
  }

  lemma RestoredRoot(disk: Option<Goal>, loaded: Option<Loaded>, now: nat)
    ensures var mem := RestoreGoal(disk, loaded, now);
      Persisted(mem).Some? ==> disk.Some? && Persisted(mem).value.rootActiveMillis == disk.value.rootActiveMillis
  {
    hide Reconcile, ValidGoal, KeepsRequest, KeepsBlame;
    if disk.Some? { ReconcileAccounts(disk.value, loaded, now); }
  }

  lemma OtherNext(w: World, op: Op)
    requires TimeOk(w) && Allowed(w, op) && (op.CreateOp? || op.RestartOp?)
    ensures TimeOk(Next(w, op))
  {
    hide Step, Logged, FreeTime, RestoreGoal;
    FreeCovers(w, op.now);
    StepOf(w.s, op);
    if op.RestartOp? { RestoredRoot(w.s.disk, LoadLedger(w.s, op.load), op.now); } else { CreateShape(w.s, op); }
  }

  lemma {:induction false} TimeRun(w: World, ops: seq<Op>)
    requires TimeOk(w) && AllowedRun(w, ops)
    ensures TimeOk(Run(w, ops))
    decreases |ops|
  {
    hide TimeOk, Next, Allowed;
    if ops != [] {
      if ops[0].CreateOp? || ops[0].RestartOp? { OtherNext(w, ops[0]); } else { LiveNext(w, ops[0]); }
      TimeRun(Next(w, ops[0]), ops[1..]);
    }
  }

  /**
   * After any run under a monotone clock: an open wait means no running interval, and the counter never exceeds the turn
   * time spent with no wait open, whatever the nesting of waits and whichever writes failed; it stays within 63 bits.
   */
  lemma ActiveTimeBounded(c: L.Coord, ops: seq<Op>)
    requires AllowedRun(Init(c), ops)
    ensures var w := Run(Init(c), ops);
      && (w.s.turn.Some? && w.s.turn.value.waiting != {} ==> w.s.turn.value.activeSince.None?)
      && (forall g :: w.s.mem == Live(g) || w.s.disk == Some(g) ==> g.rootActiveMillis * NANOS_PER_MILLI <= w.h.free && g.rootActiveMillis <= MAX_I64)
  {
    hide Run, AllowedRun;
    assert TimeOk(Init(c));
    TimeRun(Init(c), ops);
  }

  /** A cancellation whose write fails leaves the Goal alone but its interval closed: the time since is not counted. */
  lemma FailedCancelHalts(s: State, now: nat, w: Writes)
    requires s.mem.Live? && s.mem.goal.status == Active && s.mem.goal.revision < MAX_U64 && s.turn.Some? && !w.first
    ensures var (n, reply) := CancelPause(s, now, w);
      reply == Refused(WriteFailed) && n.mem == s.mem && n.disk == s.disk && n.turn == Some(s.turn.value.(activeSince := None))
  {
    hide Retire, AddMillis, ElapsedMillis;
  }
}
