/**
 * What each step of the Goal leaves, told on the fields: exactly when it answers Done, what the Goal then is, and that a
 * step that does not answer so leaves the Goal alone.
 */
module GoalOutcomes {
  import opened Basics
  import opened RuntimeTypes
  import opened UsageNormalize
  import opened GoalTypes
  import opened GoalUsage
  import opened GoalMachine
  import opened GoalRuns
  import opened GoalSteps
  import E = GoalEvidence
  import L = InputLedger
  import Q = InputSchedule

  /** No turn runs, and the boundary is free or the caller's own. */
  predicate AtRest(s: State, control: Control) {
    s.turn.None? && (control.boundary == Turn("") || control.boundary == control.owner)
  }

  /** A Goal that a command may change now. */
  predicate Changeable(s: State) {
    s.mem.Live? && s.mem.goal.pendingUsage.None? && s.mem.goal.status != Complete && s.mem.goal.revision != MAX_U64
  }

  /** Memory and disk hold `g`; apart from the queue nothing else has changed. */
  predicate Stores(s: State, n: State, g: Goal) {
    n == s.(mem := Live(g), disk := Some(g), coord := n.coord)
  }

  predicate Waits(c: Option<Continuation>) {
    c.Some? && (c.value.disposition == CursorPending || c.value.disposition == CursorAdmitting)
  }

  /** A waiting cursor is rejected for this reason; any other stays. */
  function Shut(c: Option<Continuation>, code: string, now: nat): (r: Option<Continuation>) {
    if Waits(c) then Some(Continuation(c.value.identity, CursorRejected, code, now)) else c
  }

  /** The queue after a waiting cursor has been retired, or as it was. */
  ghost predicate Withdraws(s: State, n: State, cursor: Option<Continuation>, code: string, now: nat, w: Writes) {
    n.coord == if Waits(cursor) then Retire(s.coord, ContinuationItem(cursor.value.identity), code, now, now, w).0 else s.coord
  }

  // ---------------------------------------------------------------- commands

  lemma CreateExact(s: State, op: Op)
    requires op.CreateOp? && (s.mem.Live? ==> s.mem.goal.goalId != op.id)
    ensures var (n, reply) := Step(s, op);
      var cursor := if s.mem.Live? then s.mem.goal.continuation else None;
      && (reply == Done <==>
            && AtRest(s, op.control) && op.objective != "" && op.budget != Some(0) && !op.control.contained && op.w.first
            && (s.mem == Empty || (s.mem.Live? && s.mem.goal.status == Complete)))
      && (reply != Done ==> n == s)
      && (reply == Done ==>
            && Withdraws(s, n, cursor, "superseded-by-goal-control", op.now, op.w)
            && Stores(s, n, Goal(op.id, op.objective, 1, Active, "", 1, op.budget, 0, 0, 0, 0,
                 if Waits(cursor) then Shut(cursor, "superseded-by-goal-control", op.now) else None,
                 Turn(""), 0, None, None, "", [], op.now, op.now)))
  {
    hide Retire, Clear, BeginTurn, Terminal, CancelPause, ReconcileContinuation, Admit, Restart;
  }

  /** An accepted edit stores exactly the new objective under the next objective revision, and drops the evidence. */
  lemma EditExact(s: State, op: Op)
    requires op.EditOp?
    ensures var (n, reply) := Step(s, op);
      && (reply == Done <==>
            AtRest(s, op.control) && Changeable(s) && op.objective != "" && s.mem.goal.objectiveRevision != MAX_U64 && op.w.first)
      && (reply != Done ==> n == s)
      && (reply == Done ==>
            var g := s.mem.goal;
            && Withdraws(s, n, g.continuation, "superseded-by-objective-edit", op.now, op.w)
            && Stores(s, n, g.(objective := op.objective, objectiveRevision := g.objectiveRevision + 1, revision := g.revision + 1,
                 updatedAt := op.now, pendingComplete := None, blockerKey := "", blockerTurns := [],
                 continuation := Shut(g.continuation, "superseded-by-objective-edit", op.now))))
  {
    hide Retire, Clear, BeginTurn, Terminal, CancelPause, ReconcileContinuation, Admit, Restart;
  }

  lemma PauseExact(s: State, op: Op)
    requires op.PauseOp?
    ensures var (n, reply) := Step(s, op);
      && (reply == Done <==>
            && AtRest(s, op.control) && Changeable(s) && op.w.first
            && !(s.mem.goal.status == Paused && s.mem.goal.reasonCode == "user-paused"))
      && (reply != Done ==> n == s)
      && (reply == Done ==>
            var g := s.mem.goal;
            && Withdraws(s, n, g.continuation, "superseded-by-goal-pause", op.now, op.w)
            && Stores(s, n, g.(status := Paused, reasonCode := "user-paused", revision := g.revision + 1, updatedAt := op.now,
                 pendingComplete := None, blockerKey := "", blockerTurns := [],
                 continuation := Shut(g.continuation, "superseded-by-goal-pause", op.now))))
  {
    hide Retire, Clear, BeginTurn, Terminal, CancelPause, ReconcileContinuation, Admit, Restart;
  }

  lemma ResumeExact(s: State, op: Op)
    requires op.ResumeOp?
    ensures var (n, reply) := Step(s, op);
      && (reply == Done <==>
            && AtRest(s, op.control) && Changeable(s) && !op.control.contained && op.w.first
            && (s.mem.goal.status == Paused || s.mem.goal.status == Blocked || s.mem.goal.status == BudgetLimited)
            && (s.mem.goal.tokenBudget.Some? ==> s.mem.goal.tokensUsed < s.mem.goal.tokenBudget.value))
      && (reply != Done ==> n == s)
      && (reply == Done ==>
            var g := s.mem.goal;
            && Withdraws(s, n, g.continuation, "superseded-by-goal-resume", op.now, op.w)
            && Stores(s, n, g.(status := Active, reasonCode := "", revision := g.revision + 1, updatedAt := op.now,
                 pendingComplete := None, blockerKey := "", blockerTurns := [],
                 continuation := Shut(g.continuation, "superseded-by-goal-resume", op.now))))
  {
    hide Retire, Clear, BeginTurn, Terminal, CancelPause, ReconcileContinuation, Admit, Restart;
  }

  /** An accepted budget is stored exactly; an active Goal that it no longer covers is limited and loses its evidence. */
  lemma BudgetExact(s: State, op: Op)
    requires op.BudgetOp?
    ensures var (n, reply) := Step(s, op);
      && (reply == Done <==> AtRest(s, op.control) && Changeable(s) && op.newBudget > 0 && op.w.first)
      && (reply != Done ==> n == s)
      && (reply == Done ==>
            var g := s.mem.goal;
            var funded := g.(tokenBudget := Some(op.newBudget), revision := g.revision + 1, updatedAt := op.now,
              continuation := Shut(g.continuation, "superseded-by-budget-change", op.now));
            && Withdraws(s, n, g.continuation, "superseded-by-budget-change", op.now, op.w)
            && Stores(s, n,
                 if g.status == Active && op.newBudget <= g.tokensUsed
                 then funded.(status := BudgetLimited, reasonCode := "budget-exhausted", pendingComplete := None, blockerKey := "", blockerTurns := [])
                 else funded))
  {
    hide Retire, Clear, BeginTurn, Terminal, CancelPause, ReconcileContinuation, Admit, Restart;
  }

  /** Clearing removes the Goal and its turn, once a waiting cursor has been retired and its item is gone. */
  lemma ClearExact(s: State, op: Op)
    requires op.ClearOp? && s.mem != Empty
    ensures var (n, reply) := Step(s, op);
      var g := if s.mem.Live? then s.mem.goal else s.mem.shown;
      && (reply == Done <==>
            && (op.control.boundary == Turn("") || op.control.boundary == op.control.owner) && g.pendingUsage.None? && op.w.second
            && (Waits(g.continuation) ==>
                  && g.revision != MAX_U64 && op.w.first
                  && Retire(s.coord, ContinuationItem(g.continuation.value.identity), "superseded-by-goal-clear", op.now, op.now, op.w).1))
      && (reply == Done ==>
            && n == s.(mem := Empty, disk := None, turn := None, coord := n.coord)
            && Withdraws(s, n, g.continuation, "superseded-by-goal-clear", op.now, op.w))
      && (reply != Done ==>
            || n == s
            || (&& Waits(g.continuation) && op.w.first && n == s.(mem := n.mem, disk := n.disk, coord := n.coord)
                && var kept := g.(revision := g.revision + 1, updatedAt := op.now,
                     continuation := Shut(g.continuation, "superseded-by-goal-clear", op.now));
                if s.mem.Live? then n.mem == Live(kept) && n.disk == Some(kept)
                else n.mem == Unavailable(s.mem.raw, kept) && n.disk == Some(s.mem.raw)))
  {
    hide Retire;
    StepOf(s, op);
    hide Step;
  }

  // ---------------------------------------------------------------- turns

  /** A turn without a claimed item: its name is stored, a waiting cursor is rejected, and its interval starts now. */
  lemma BeginExact(s: State, op: Op)
    requires op.BeginOp? && op.item.None?
    ensures var (n, reply) := Step(s, op);
      var code := if op.steering then "superseded-by-user-steering" else "superseded-by-new-goal-turn";
      var opens := op.turnId != Turn("") && op.boundary == op.turnId && s.mem.Live? && s.mem.goal.status == Active &&
        s.mem.goal.pendingUsage.None? && s.turn.None? && s.mem.goal.revision != MAX_U64 && op.w.first;
      && (!opens ==> n == s && reply != Done)
      && (opens ==>
            var g := s.mem.goal;
            var cursor := Shut(g.continuation, code, op.now);
            var begun := g.(revision := g.revision + 1, updatedAt := op.now, lastTurnId := op.turnId, continuation := cursor);
            var next := if op.steering then begun.(pendingComplete := None, blockerKey := "", blockerTurns := []) else begun;
            var retires := op.steering && cursor.Some? && cursor.value.disposition == CursorRejected;
            && n == s.(mem := Live(next), disk := Some(next), coord := n.coord, turn := n.turn)
            && n.turn == (if reply == Done then Some(TurnRuntime(op.turnId, Some(op.now), {})) else None)
            && (!retires ==> reply == Done && n.coord == s.coord)
            && (retires ==>
                  var (coord, settled) :=
                    Retire(s.coord, ContinuationItem(cursor.value.identity), cursor.value.reason, op.now, op.now, op.w);
                  n.coord == coord && (reply == Done <==> settled)))
  {
    TurnStepOf(s, op);
    hide Step, Retire;
  }

  lemma CompletionExact(s: State, op: Op)
    requires op.CompletionOp?
    ensures var (n, reply) := Step(s, op);
      && (reply == Done <==> Speaks(s, op.goalId, op.objectiveRevision, op.turnId) && s.mem.goal.revision != MAX_U64 && op.ok)
      && (reply != Done ==> n == s)
      && (reply == Done ==>
            var g := s.mem.goal;
            Stores(s, n, g.(revision := g.revision + 1, updatedAt := op.now,
              pendingComplete := Some(CompletionRequest(op.turnId, op.objectiveRevision)))) && n.coord == s.coord)
  {
    TurnStepOf(s, op);
    hide Step;
  }

  /** The running turn speaks for the active Goal and its current objective, and no provider call is outstanding. */
  predicate Speaks(s: State, goalId: string, objectiveRevision: nat, turnId: TurnId) {
    && turnId != Turn("") && s.mem.Live? && s.turn.Some? && s.turn.value.turnId == turnId
    && var g := s.mem.goal;
    g.pendingUsage.None? && g.status == Active && g.goalId == goalId && g.objectiveRevision == objectiveRevision && g.lastTurnId == turnId
  }

  /** Whole milliseconds since the interval began, added without leaving 63 bits. */
  function WithInterval(total: nat, since: Option<nat>, now: nat): (r: nat) {
    if since.None? || now <= since.value then total
    else
      var passed := now - since.value;
      var millis := (if passed > MAX_I64 then MAX_I64 else passed) / 1_000_000;
      if millis > 0 && total + millis > MAX_I64 then MAX_I64 else total + millis
  }

  /** The first two turns to report a key are remembered; the third blocks the Goal, and its interval is counted and closed. */
  lemma BlockerExact(c: L.Coord, ops: seq<Op>, op: Op)
    requires op.BlockerOp?
    ensures var s := Run(Init(c), ops).s;
      var (n, reply) := Step(s, op);
      var speaks := Speaks(s, op.goalId, op.objectiveRevision, op.turnId) && op.key != "" && op.reason != "" && s.mem.goal.revision != MAX_U64;
      && (!speaks ==> n == s && reply != Done)
      && (speaks ==> Reports(s, op, n, reply))
  {
    hide Run, Step, Speaks, Reports, E.TurnsSince;
    E.BlockerEvidence(c, ops);
    var s := Run(Init(c), ops).s;
    ReportStep(s, op);
  }

  /** What a report that is heard does. */
  ghost predicate Reports(s: State, op: Op, n: State, reply: Reply)
    requires op.BlockerOp? && s.mem.Live? && s.turn.Some?
  {
    var g, turn := s.mem.goal, s.turn.value;
    var known := if g.blockerKey == op.key then g.blockerTurns else [];
    var noted := g.(revision := g.revision + 1, updatedAt := op.now, blockerKey := op.key, blockerTurns := known + [op.turnId]);
    var idle := turn.(activeSince := None);
    if op.turnId in known then reply == Unchanged && n == s
    else if |known| < 2 then
      if op.ok then reply == Done && Stores(s, n, noted) && n.coord == s.coord else reply != Done && n == s
    else if op.ok then
      && reply == Done && n.coord == s.coord
      && Stores(s.(turn := Some(idle)), n, noted.(status := Blocked, reasonCode := "model-blocker",
           rootActiveMillis := WithInterval(g.rootActiveMillis, turn.activeSince, op.now)))
    else reply != Done && n == s.(turn := Some(idle))
  }

  lemma ReportStep(s: State, op: Op)
    requires op.BlockerOp? && (s.mem.Live? && s.mem.goal.status == Active ==> |s.mem.goal.blockerTurns| < 3)
    ensures var (n, reply) := Step(s, op);
      var speaks := Speaks(s, op.goalId, op.objectiveRevision, op.turnId) && op.key != "" && op.reason != "" && s.mem.goal.revision != MAX_U64;
      && (!speaks ==> n == s && reply != Done)
      && (speaks ==> Reports(s, op, n, reply))
  {
    hide Step, BlockerTurnsWith, StopInterval, WithInterval;
    TurnStepOf(s, op);
    if Speaks(s, op.goalId, op.objectiveRevision, op.turnId) {
      var g := s.mem.goal;
      TurnsIs(g, op.key, op.turnId);
      StopIs(g.(revision := g.revision + 1, updatedAt := op.now, blockerKey := op.key, blockerTurns := BlockerTurnsWith(g, op.key, op.turnId),
        status := Blocked, reasonCode := "model-blocker"), s.turn.value, op.now);
    }
  }

  lemma TurnsIs(g: Goal, key: string, turnId: TurnId)
    ensures var known := if g.blockerKey == key then g.blockerTurns else [];
      |known| <= 2 ==> BlockerTurnsWith(g, key, turnId) == if turnId in known then known else known + [turnId]
  {
    var known := if g.blockerKey == key then g.blockerTurns else [];
    if |known| == 2 { assert (known + [turnId])[0..] == known + [turnId]; }
  }

  lemma StopIs(g: Goal, turn: TurnRuntime, now: nat)
    ensures StopInterval(g, turn, now) ==
      (g.(rootActiveMillis := WithInterval(g.rootActiveMillis, turn.activeSince, now)), turn.(activeSince := None))
  {}

  /** A first wait closes the interval and counts it; a further one only joins. */
  lemma OpenWaitExact(s: State, op: Op)
    requires op.OpenWaitOp?
    ensures var (n, reply) := Step(s, op);
      && (reply == Done <==>
            && op.reason != "" && s.turn.Some? && s.mem.Live? && s.mem.goal.status == Active && op.reason !in s.turn.value.waiting
            && s.mem.goal.revision != MAX_U64 && op.ok)
      && (reply != Done ==> n == s)
      && (reply == Done ==>
            var g, turn := s.mem.goal, s.turn.value;
            var next := g.(revision := g.revision + 1, updatedAt := op.now);
            if turn.waiting == {} then
              Stores(s.(turn := Some(TurnRuntime(turn.turnId, None, {op.reason}))), n,
                next.(rootActiveMillis := WithInterval(g.rootActiveMillis, turn.activeSince, op.now))) && n.coord == s.coord
            else Stores(s.(turn := Some(turn.(waiting := turn.waiting + {op.reason}))), n, next) && n.coord == s.coord)
  {
    hide Step, StopInterval, WithInterval;
    TurnStepOf(s, op);
    if s.turn.Some? && s.turn.value.waiting == {} && s.mem.Live? {
      assert {} + {op.reason} == {op.reason};
      StopIs(s.mem.goal.(revision := s.mem.goal.revision + 1, updatedAt := op.now), s.turn.value, op.now);
    }
  }

  /** Closing the last wait of an active Goal starts a new interval now. */
  lemma CloseWaitExact(s: State, op: Op)
    requires op.CloseWaitOp?
    ensures var (n, reply) := Step(s, op);
      && (reply == Done <==>
            op.reason != "" && s.turn.Some? && s.mem.Live? && op.reason in s.turn.value.waiting && s.mem.goal.revision != MAX_U64 && op.ok)
      && (reply != Done ==> n == s)
      && (reply == Done ==>
            var g, turn := s.mem.goal, s.turn.value;
            && Stores(s.(turn := n.turn), n, g.(revision := g.revision + 1, updatedAt := op.now)) && n.coord == s.coord
            && n.turn == Some(TurnRuntime(turn.turnId,
                 if turn.waiting == {op.reason} && g.status == Active then Some(op.now) else turn.activeSince, turn.waiting - {op.reason})))
  {
    TurnStepOf(s, op);
    hide Step;
    if s.turn.Some? && op.reason in s.turn.value.waiting { LastOne(s.turn.value.waiting, op.reason); }
  }

  lemma LastOne(waiting: set<string>, reason: string)
    requires reason in waiting
    ensures waiting - {reason} == {} <==> waiting == {reason}
  {
    if waiting - {reason} == {} {
      forall x | x in waiting ensures x == reason { assert x == reason || x in waiting - {reason}; }
    }
  }

  lemma DeliveredExact(s: State, op: Op)
    requires op.DeliveredOp?
    ensures var (n, reply) := Step(s, op);
      && (reply == Done <==>
            && s.mem.Live? && s.mem.goal.continuation.Some? && s.mem.goal.continuation.value.disposition == CursorAdmitting
            && op.itemId == ContinuationItem(s.mem.goal.continuation.value.identity)
            && op.turnId == ContinuationTurn(s.mem.goal.continuation.value.identity)
            && s.mem.goal.revision != MAX_U64 && op.ok)
      && (reply != Done ==> n == s)
      && (reply == Done ==>
            var g := s.mem.goal;
            Stores(s, n, g.(revision := g.revision + 1, updatedAt := op.now,
              continuation := Some(Continuation(g.continuation.value.identity, CursorDelivered, "transcript-receipt-committed", op.now)))) &&
            n.coord == s.coord)
  {
    TurnStepOf(s, op);
    hide Step;
  }

  /** A cancellation pauses the active Goal, counts and closes the interval, and retires a waiting cursor. */
  lemma CancelExact(s: State, op: Op)
    requires op.CancelOp?
    ensures var (n, reply) := Step(s, op);
      var halted := if s.turn.Some? then s.(turn := Some(s.turn.value.(activeSince := None))) else s;
      var able := s.mem.Live? && s.mem.goal.status == Active && s.mem.goal.revision != MAX_U64;
      && (reply == Done <==> able && op.w.first)
      && (!able ==> n == s)
      && (able && !op.w.first ==> n == halted)
      && (reply == Done ==>
            var g := s.mem.goal;
            && Withdraws(s, n, g.continuation, "superseded-by-user-cancel", op.now, op.w)
            && Stores(halted, n, g.(status := Paused, reasonCode := "user-cancelled", revision := g.revision + 1, updatedAt := op.now,
                 pendingComplete := None, blockerKey := "", blockerTurns := [],
                 rootActiveMillis := if s.turn.Some? then WithInterval(g.rootActiveMillis, s.turn.value.activeSince, op.now) else g.rootActiveMillis,
                 continuation := Shut(g.continuation, "superseded-by-user-cancel", op.now))))
  {
    hide Step, Retire, StopInterval, WithInterval;
    TurnStepOf(s, op);
    if s.mem.Live? && s.turn.Some? {
      var g := s.mem.goal;
      StopIs(g.(revision := g.revision + 1, updatedAt := op.now, status := Paused, reasonCode := "user-cancelled", pendingComplete := None,
        blockerKey := "", blockerTurns := []), s.turn.value, op.now);
    }
  }

  // ---------------------------------------------------------------- the terminal boundary

  /** A person's input is pending in the queue. */
  predicate Typed(c: L.Coord) {
    exists i :: i in c.items && i.state == L.Pending && i.scope == c.scope && (i.kind == L.UserPrompt || i.kind == L.Steering)
  }

  lemma TypedIs(c: L.Coord)
    ensures SteeringPending(c) <==> Typed(c)
  {
    Q.SortedMembers(Filter(c.items, L.ScopePick(c, c.scope)));
    FilterMembers(c.items, L.ScopePick(c, c.scope));
  }

  /** The turn asked for completion, and nothing speaks against it. */
  predicate Fulfilled(s: State, e: TerminalEvent, enabled: bool) {
    && s.mem.Live? && s.turn.Some? && enabled && e.reason == Completed
    && s.mem.goal.pendingComplete == Some(CompletionRequest(e.turnId, e.objectiveRevision))
    && s.mem.goal.pendingUsage.None? && s.turn.value.waiting == {} && !Typed(s.coord)
  }

  /** The Goal wants another turn of its own. */
  predicate Continues(s: State, e: TerminalEvent) {
    && s.mem.Live? && s.turn.Some? && s.mem.goal.status == Active && e.reason == Completed && s.turn.value.waiting == {}
    && s.mem.goal.pendingComplete.None? && s.mem.goal.pendingUsage.None?
    && (s.mem.goal.tokenBudget.Some? ==> s.mem.goal.tokensUsed < s.mem.goal.tokenBudget.value)
  }

  /** The cursor that a continuing Goal leaves: what the next turn will be checked against. */
  function CursorAfter(s: State, e: TerminalEvent, now: nat): (r: CursorIdentity)
    requires s.mem.Live?
  {
    var g := s.mem.goal;
    CursorIdentity(g.goalId, g.objectiveRevision, g.revision + 1, Active, s.coord.scope, g.lastTurnId, e.sequence + 2, Completed, now,
                   g.tokenBudget, g.tokensUsed, g.usageLedgerRevision, g.continuationOrdinal + 1, s.coord.revision)
  }

  predicate Mintable(s: State, now: nat)
    requires s.mem.Live?
  {
    && s.mem.goal.goalId != "" && s.mem.goal.objectiveRevision > 0 && s.mem.goal.lastTurnId != Turn("") && now > 0
    && s.mem.goal.continuationOrdinal != MAX_U64
    && s.coord.scope.sessionId != "" && s.coord.scope.threadId != "" && s.coord.scope.agentId == ""
  }

  /** The Goal after its terminal. */
  function After(s: State, e: TerminalEvent, enabled: bool, now: nat): (r: Goal)
    requires s.mem.Live? && s.turn.Some?
  {
    var g := s.mem.goal;
    var base := g.(revision := g.revision + 1, updatedAt := now, lastTerminalSequence := e.sequence + 2,
      rootActiveMillis := WithInterval(g.rootActiveMillis, s.turn.value.activeSince, now));
    if Fulfilled(s, e, enabled) then
      base.(status := Complete, reasonCode := "", pendingComplete := None, blockerKey := "", blockerTurns := [])
    else if Continues(s, e) then
      base.(continuationOrdinal := g.continuationOrdinal + 1,
            continuation := Some(Continuation(CursorAfter(s, e, now), CursorPending, "", 0)))
    else if e.reason != Completed && g.pendingComplete.Some? && g.pendingComplete.value.turnId == e.turnId then base.(pendingComplete := None)
    else base
  }

  lemma SettledIs(s: State, e: TerminalEvent, enabled: bool, now: nat)
    requires s.mem.Live? && s.turn.Some? && s.mem.goal.revision < MAX_U64
    ensures var r := Settled(s.mem.goal, s.turn.value, e, s.coord, enabled, now);
      && (r.Success? <==> (Continues(s, e) ==> Mintable(s, now)))
      && (r.Success? ==> r.value == After(s, e, enabled, now))
  {
    hide SteeringPending, Typed, StopInterval, WithInterval;
    TypedIs(s.coord);
    StopIs(s.mem.goal.(revision := s.mem.goal.revision + 1, updatedAt := now), s.turn.value, now);
  }

  /**
   * The terminal of the running turn completes the Goal exactly when the turn asked for it and nothing is outstanding, leaves
   * a cursor with its queue item exactly when the Goal wants to go on, and otherwise only closes the turn.
   */
  lemma TerminalExact(s: State, op: Op)
    requires op.TerminalOp?
    ensures var (n, reply) := Step(s, op);
      var e := op.event;
      && (reply == Done <==>
            && s.turn.Some? && s.mem.Live? && s.turn.value.turnId == e.turnId && s.mem.goal.goalId == e.goalId
            && s.mem.goal.objectiveRevision == e.objectiveRevision && e.sequence <= MAX_U64 - 2 && s.mem.goal.revision < MAX_U64
            && (Continues(s, e) ==> Mintable(s, op.now)) && op.w.first)
      && (reply != Done ==> n == s)
      && (reply == Done ==>
            var next := After(s, e, op.enabled, op.now);
            && n == s.(mem := Live(next), disk := Some(next), turn := None, coord := n.coord)
            && n.coord == if PendingCursor(next.continuation) then EnqueueCursor(s.coord, next.continuation.value, op.now, op.w.item).0 else s.coord)
  {
    TurnStepOf(s, op);
    hide Step, EnqueueCursor, Settled, After, Continues, Mintable;
    if s.mem.Live? && s.turn.Some? && s.mem.goal.revision < MAX_U64 { SettledIs(s, op.event, op.enabled, op.now); }
  }

  // ---------------------------------------------------------------- the rest

  /** A turn that is given up takes nothing with it but itself. */
  lemma AbandonExact(s: State, op: Op)
    requires op.AbandonOp?
    ensures var (n, reply) := Step(s, op);
      var own := s.turn.Some? && s.turn.value.turnId == op.turnId;
      (reply == Done <==> own) && n == if own then s.(turn := None) else s
  {
    TurnStepOf(s, op);
    hide Step;
  }

  /** A checkpoint stores what memory stands for: the Goal, the record of an unavailable one, or nothing. */
  lemma CheckpointExact(s: State, op: Op)
    requires op.CheckpointOp?
    ensures var (n, reply) := Step(s, op);
      && (reply == Done <==> op.ok) && n == s.(disk := n.disk)
      && n.disk == if !op.ok then s.disk else match s.mem case Empty => None case Live(g) => Some(g) case Unavailable(raw, _) => Some(raw)
  {
    StepOf(s, op);
    hide Step;
  }
}
