/** Whole stretches of a Goal's life: the time of a turn, and a continuation from its terminal to its delivery or through a crash. */
module GoalCycles {
  import opened Basics
  import opened RuntimeTypes
  import opened GoalTypes
  import opened GoalUsage
  import opened GoalMachine
  import opened GoalRuns
  import opened GoalSteps
  import opened GoalOutcomes
  import B = GoalBooks
  import D = GoalStored
  import K = GoalCalls
  import L = InputLedger
  import R = GoalRecovery

  // ---------------------------------------------------------------- the time of a turn

  /** A step inside a turn: a wait that opens or closes with a good write, or one that does not concern the clock. */
  predicate Inside(op: Op) {
    ((op.OpenWaitOp? || op.CloseWaitOp?) && op.ok) || Aside(op)
  }

  predicate Aside(op: Op) {
    op.EditOp? || op.PauseOp? || op.ResumeOp? || op.BudgetOp? || op.CompletionOp? || op.DeliveredOp? || op.CheckpointOp? || op.InputOp? || Billing(op)
  }

  ghost function Play(s: State, ops: seq<Op>): (r: State)
    decreases |ops|
  {
    if ops == [] then s else Play(Step(s, ops[0]).0, ops[1..])
  }

  /** The Goal is active, with revisions to spare, before every step and at the end. */
  ghost predicate ActiveThroughout(s: State, ops: seq<Op>)
    decreases |ops|
  {
    s.mem.Live? && s.mem.goal.status == Active && s.mem.goal.revision < MAX_U64 && (ops != [] ==> ActiveThroughout(Step(s, ops[0]).0, ops[1..]))
  }


  /** The stretches of a turn with no wait open, read from the waits that open and close; `since` is when the current one began. */
  function FreeSpans(ops: seq<Op>, since: nat, open: set<string>, end: nat): (r: seq<(nat, nat)>)
    decreases |ops|
  {
    if ops == [] then (if open == {} then [(since, end)] else [])
    else
      var rest := ops[1..];
      match ops[0]
      case OpenWaitOp(reason, at, _) =>
        if reason == "" || reason in open then FreeSpans(rest, since, open, end)
        else if open == {} then [(since, at)] + FreeSpans(rest, at, {reason}, end)
        else FreeSpans(rest, since, open + {reason}, end)
      case CloseWaitOp(reason, at, _) =>
        if reason == "" || reason !in open then FreeSpans(rest, since, open, end)
        else FreeSpans(rest, at, open - {reason}, end)
      case _ => FreeSpans(rest, since, open, end)
  }

  /** The whole milliseconds of each stretch, together. */
  function WholeMillis(spans: seq<(nat, nat)>): (r: nat) {
    if spans == [] then 0
    else
      var (from, to) := spans[0];
      var passed := if to <= from then 0 else if to - from > MAX_I64 then MAX_I64 else to - from;
      passed / 1_000_000 + WholeMillis(spans[1..])
  }

  function Capped(n: nat): (r: nat) {
    if n > MAX_I64 then MAX_I64 else n
  }

  /** The turn's clock: its open waits, and the interval that runs when there is none. */
  predicate Clocked(s: State, since: nat) {
    s.turn.Some? && s.turn.value.activeSince == if s.turn.value.waiting == {} then Some(since) else None
  }

  lemma AsideKeeps(s: State, op: Op)
    requires Aside(op) && s.turn.Some? && s.mem.Live?
    ensures var n := Step(s, op).0; n.turn == s.turn && n.mem.Live? && n.mem.goal.rootActiveMillis == s.mem.goal.rootActiveMillis
  {
    hide Step;
    if op.EditOp? { EditExact(s, op); }
    else if op.PauseOp? { PauseExact(s, op); }
    else if op.ResumeOp? { ResumeExact(s, op); }
    else if op.BudgetOp? { BudgetExact(s, op); }
    else if op.CompletionOp? { CompletionExact(s, op); }
    else if op.DeliveredOp? { DeliveredExact(s, op); }
    else if Billing(op) { UsageAccounts(s, op); BilledTime(s, Step(s, op).0); }
    else { OtherKeeps(s, op); }
  }

  lemma BilledTime(s: State, n: State)
    requires AccountedFor(s, n) && s.mem.Live?
    ensures n.turn == s.turn && n.mem.Live? && n.mem.goal.rootActiveMillis == s.mem.goal.rootActiveMillis
  {
    hide KeepsRequest, KeepsBlame;
  }

  lemma OtherKeeps(s: State, op: Op)
    requires op.CheckpointOp? || op.InputOp?
    ensures var n := Step(s, op).0; n.turn == s.turn && n.mem == s.mem
  {
    hide Transition, Clear, BeginTurn, Terminal, CancelPause, ReconcileContinuation, Admit, Restart;
  }

  lemma SpanCounted(total: nat, from: nat, to: nat, rest: seq<(nat, nat)>)
    requires total <= MAX_I64
    ensures Capped(WithInterval(total, Some(from), to) + WholeMillis(rest)) == Capped(total + WholeMillis([(from, to)] + rest))
    ensures WithInterval(total, Some(from), to) <= MAX_I64
  {
    assert ([(from, to)] + rest)[1..] == rest;
  }

  /** What `n` has counted and will count over `rest` is what `s` has counted and will count over `ops`. */
  predicate Carries(s: State, ops: seq<Op>, since: nat, n: State, rest: seq<Op>, next: nat, end: nat) {
    && s.turn.Some? && s.mem.Live? && Clocked(n, next) && n.mem.Live? && n.mem.goal.rootActiveMillis <= MAX_I64
    && Capped(s.mem.goal.rootActiveMillis + WholeMillis(FreeSpans(ops, since, s.turn.value.waiting, end))) ==
       Capped(n.mem.goal.rootActiveMillis + WholeMillis(FreeSpans(rest, next, n.turn.value.waiting, end)))
  }

  /** One step inside a turn, and the stretches that are left. */
  lemma TimeStep(s: State, op: Op, rest: seq<Op>, since: nat, end: nat)
    requires Inside(op) && Clocked(s, since) && s.mem.Live? && s.mem.goal.status == Active && s.mem.goal.revision < MAX_U64
    requires s.mem.goal.rootActiveMillis <= MAX_I64
    ensures var n := Step(s, op).0;
      exists next: nat :: Carries(s, [op] + rest, since, n, rest, next, end)
  {
    hide Step, WholeMillis, WithInterval;
    var n := Step(s, op).0;
    assert ([op] + rest)[1..] == rest;
    if op.OpenWaitOp? {
      OpenWaitExact(s, op);
      if s.turn.value.waiting == {} && op.reason != "" {
        SpanCounted(s.mem.goal.rootActiveMillis, since, op.now, FreeSpans(rest, op.now, {op.reason}, end));
        assert op.reason in n.turn.value.waiting;
        assert Carries(s, [op] + rest, since, n, rest, op.now, end);
      } else {
        if op.reason != "" { assert op.reason in n.turn.value.waiting; }
        assert Carries(s, [op] + rest, since, n, rest, since, end);
      }
    } else if op.CloseWaitOp? {
      CloseWaitExact(s, op);
      if op.reason != "" && op.reason in s.turn.value.waiting {
        LastOne(s.turn.value.waiting, op.reason);
        assert Carries(s, [op] + rest, since, n, rest, op.now, end);
      } else { assert Carries(s, [op] + rest, since, n, rest, since, end); }
    } else {
      AsideKeeps(s, op);
      assert Carries(s, [op] + rest, since, n, rest, since, end);
    }
  }

  lemma {:induction false} TimeOfTurn(s: State, ops: seq<Op>, since: nat, terminal: Op)
    requires Clocked(s, since) && ActiveThroughout(s, ops) && (forall i :: 0 <= i < |ops| ==> Inside(ops[i]))
    requires s.mem.goal.rootActiveMillis <= MAX_I64
    requires terminal.TerminalOp? && Step(Play(s, ops), terminal).1 == Done
    ensures var n := Step(Play(s, ops), terminal).0;
      n.mem.Live? && n.mem.goal.rootActiveMillis ==
        Capped(s.mem.goal.rootActiveMillis + WholeMillis(FreeSpans(ops, since, s.turn.value.waiting, terminal.now)))
    decreases |ops|
  {
    hide Step, Inside, FreeSpans, WholeMillis;
    if ops == [] {
      EndOfTurn(s, since, terminal);
    } else {
      assert ops == [ops[0]] + ops[1..];
      TimeStep(s, ops[0], ops[1..], since, terminal.now);
      var n := Step(s, ops[0]).0;
      var next: nat :| Carries(s, ops, since, n, ops[1..], next, terminal.now);
      TimeOfTurn(n, ops[1..], next, terminal);
    }
  }

  lemma EndOfTurn(s: State, since: nat, terminal: Op)
    requires Clocked(s, since) && s.mem.Live? && s.mem.goal.rootActiveMillis <= MAX_I64 && terminal.TerminalOp? && Step(s, terminal).1 == Done
    ensures var n := Step(s, terminal).0;
      n.mem.Live? && n.mem.goal.rootActiveMillis ==
        Capped(s.mem.goal.rootActiveMillis + WholeMillis(FreeSpans([], since, s.turn.value.waiting, terminal.now)))
  {
    hide Step, WithInterval, Fulfilled, Continues, Mintable, WholeMillis;
    TerminalExact(s, terminal);
    SpanCounted(s.mem.goal.rootActiveMillis, since, terminal.now, []);
    NoSpans();
    NoInterval(s.mem.goal.rootActiveMillis, terminal.now);
    assert [(since, terminal.now)] + [] == [(since, terminal.now)];
  }

  lemma NoInterval(total: nat, now: nat)
    ensures WithInterval(total, None, now) == total
  {}

  lemma NoSpans()
    ensures WholeMillis([]) == 0
  {}

  /**
   * The exact time of a turn: begun, with waits opened and closed in any nesting, provider calls and other steps in between,
   * and ended by its terminal, it adds the whole milliseconds of each stretch with no wait open, and nothing else.
   */
  lemma TurnTimeExact(s: State, begin: Op, ops: seq<Op>, terminal: Op)
    requires begin.BeginOp? && begin.item.None? && Step(s, begin).1 == Done && s.mem.Live? && s.mem.goal.rootActiveMillis <= MAX_I64
    requires ActiveThroughout(Step(s, begin).0, ops) && forall i :: 0 <= i < |ops| ==> Inside(ops[i])
    requires terminal.TerminalOp? && Step(Play(Step(s, begin).0, ops), terminal).1 == Done
    ensures var n := Step(Play(Step(s, begin).0, ops), terminal).0;
      n.mem.Live? && n.mem.goal.rootActiveMillis == Capped(s.mem.goal.rootActiveMillis + WholeMillis(FreeSpans(ops, begin.now, {}, terminal.now)))
  {
    hide Step, Play, ActiveThroughout, Inside, FreeSpans, WholeMillis, Retire;
    BeginExact(s, begin);
    TimeOfTurn(Step(s, begin).0, ops, begin.now, terminal);
  }

  // ---------------------------------------------------------------- a continuation, from terminal to delivery

  /** No item with this identity or of this kind is queued, and it has not been delivered. */
  predicate Room(c: L.Coord, identity: CursorIdentity) {
    R.Without(c.items, ContinuationItem(identity)) && R.NoContinuation(c.items, c.scope) && ContinuationItem(identity) !in c.delivered
  }

  lemma CursorValid(s: State, e: TerminalEvent, now: nat)
    requires Continues(s, e) && Mintable(s, now)
    ensures ValidCursorIdentity(CursorAfter(s, e, now)) && CursorAfter(s, e, now).scope == s.coord.scope
  {}

  /** A terminal of a Goal that goes on leaves its cursor in the Goal and the cursor's item at the end of the queue. */
  lemma TerminalQueues(s: State, op: Op)
    requires op.TerminalOp? && Step(s, op).1 == Done && Continues(s, op.event) && op.w.item && Room(s.coord, CursorAfter(s, op.event, op.now))
    ensures var n := Step(s, op).0;
      var identity := CursorAfter(s, op.event, op.now);
      && n.mem == Live(After(s, op.event, op.enabled, op.now)) && n.disk == Some(n.mem.goal) && n.turn.None?
      && n.mem.goal.continuation == Some(Continuation(identity, CursorPending, "", 0))
      && n.coord == s.coord.(items := s.coord.items + [R.Entry(identity, 1, s.coord.nextSequence + 1, op.now)],
                             nextSequence := s.coord.nextSequence + 1, revision := s.coord.revision + 1, disk := n.coord.disk)
  {
    hide Step, EnqueueCursor, Typed, WithInterval, Mintable, Continues;
    TerminalExact(s, op);
    CursorValid(s, op.event, op.now);
    AfterContinues(s, op.event, op.enabled, op.now);
    R.CursorQueued(s.coord, Continuation(CursorAfter(s, op.event, op.now), CursorPending, "", 0), op.now);
  }

  lemma AfterContinues(s: State, e: TerminalEvent, enabled: bool, now: nat)
    requires Continues(s, e)
    ensures After(s, e, enabled, now).continuation == Some(Continuation(CursorAfter(s, e, now), CursorPending, "", 0))
  {
    hide Typed, WithInterval;
  }

  /** Nothing a person typed is pending, and the only item with this identity is the last one, in this state. */
  predicate Clear(c: L.Coord, identity: CursorIdentity, state: L.ItemState) {
    && !Typed(c) && c.items != [] && identity.scope == c.scope
    && (var last := c.items[|c.items| - 1]; last == R.Entry(identity, last.version, last.sequence, last.enqueuedAt).(state := state))
    && R.Without(c.items[..|c.items| - 1], ContinuationItem(identity))
  }

  lemma LastIsIt(c: L.Coord, identity: CursorIdentity, state: L.ItemState)
    requires Clear(c, identity, state)
    ensures L.ContinuationIndex(c.items, ContinuationItem(identity), L.NormalScope(c.scope, c.scope), state, |c.items|) == Success(|c.items| - 1)
  {
    hide L.ContinuationIndex;
    var scope := L.NormalScope(c.scope, c.scope);
    var r := L.ContinuationIndex(c.items, ContinuationItem(identity), scope, state, |c.items|);
    forall i | 0 <= i < |c.items| ensures !L.ExplicitInput(c.items[i], scope) { assert c.items[i] in c.items; }
    assert L.IsContinuation(c.items[|c.items| - 1], ContinuationItem(identity), scope, state);
    forall i | 0 <= i < |c.items| - 1 ensures c.items[i].id != ContinuationItem(identity) { assert c.items[..|c.items| - 1][i] == c.items[i]; }
  }

  lemma ClaimsIt(c: L.Coord, identity: CursorIdentity)
    requires Clear(c, identity, L.Pending)
    ensures var (n, r) := L.ClaimContinuation(c, ContinuationItem(identity), c.scope, true);
      var item := c.items[|c.items| - 1].(state := L.Processing);
      && r == Success(Some(item)) && n == c.(items := c.items[..|c.items| - 1] + [item], revision := c.revision + 1, disk := n.disk)
      && Clear(n, identity, L.Processing)
  {
    hide L.ContinuationIndex, L.Encode;
    LastIsIt(c, identity, L.Pending);
    var item := c.items[|c.items| - 1].(state := L.Processing);
    assert c.items[|c.items| - 1 := item] == c.items[..|c.items| - 1] + [item];
    var n := L.ClaimContinuation(c, ContinuationItem(identity), c.scope, true).0;
    assert n.items[..|n.items| - 1] == c.items[..|c.items| - 1];
    forall i | i in n.items && i.state == L.Pending && i.scope == n.scope ensures i in c.items { assert i in c.items[..|c.items| - 1]; }
  }

  /** A claimed continuation begins its turn on the Goal its terminal left. */
  lemma BeginsIt(s: State, op: Op)
    requires op.BeginOp? && s.mem.Live? && s.mem.goal.continuation.Some? && s.turn.None? && op.w.first
    requires var g := s.mem.goal;
      var identity := g.continuation.value.identity;
      && g.status == Active && g.pendingUsage.None? && g.revision < MAX_U64 && g.continuation.value.disposition == CursorPending
      && BoundCursor(g, g.continuation.value) && BudgetRemains(g.tokenBudget, g.tokensUsed)
      && Clear(s.coord, identity, L.Processing) && s.coord.revision > identity.runtimeRevision
      && op.turnId == ContinuationTurn(identity) && op.boundary == op.turnId && op.item == Some(s.coord.items[|s.coord.items| - 1])
    ensures var (n, reply) := Step(s, op);
      var g := s.mem.goal;
      var next := g.(revision := g.revision + 1, updatedAt := op.now, lastTurnId := op.turnId,
        continuation := Some(Continuation(g.continuation.value.identity, CursorAdmitting, "continuation-turn-admitted", op.now)));
      reply == Done && n == s.(mem := Live(next), disk := Some(next), turn := Some(TurnRuntime(op.turnId, Some(op.now), {})))
  {
    TurnStepOf(s, op);
    hide Step, Retire, L.ContinuationIndex, Typed, BudgetRemains;
    LastIsIt(s.coord, s.mem.goal.continuation.value.identity, L.Processing);
  }

  /** Where a person's input is pending, the continuation is rejected for good: the cursor is closed and its item retired. */
  lemma RejectsIt(s: State, op: Op, k: nat)
    requires op.BeginOp? && s.mem.Live? && s.mem.goal.continuation.Some? && s.turn.None? && op.w.first && k < |s.coord.items|
    requires var g := s.mem.goal;
      var identity := g.continuation.value.identity;
      && g.status == Active && g.pendingUsage.None? && g.revision < MAX_U64 && g.continuation.value.disposition == CursorPending
      && BoundCursor(g, g.continuation.value) && BudgetRemains(g.tokenBudget, g.tokensUsed) && identity.scope == s.coord.scope && Typed(s.coord)
      && op.turnId == ContinuationTurn(identity) && op.boundary == op.turnId && op.item == Some(s.coord.items[k])
      && s.coord.items[k] == R.Entry(identity, s.coord.items[k].version, s.coord.items[k].sequence, s.coord.items[k].enqueuedAt).(state := s.coord.items[k].state)
    ensures var (n, reply) := Step(s, op);
      var g := s.mem.goal;
      var next := g.(revision := g.revision + 1, updatedAt := op.now,
        continuation := Some(Continuation(g.continuation.value.identity, CursorRejected, "superseded-by-explicit-user-input", op.now)));
      && reply == Refused(PermanentlyRejected) && n == s.(mem := Live(next), disk := Some(next), coord := n.coord)
      && Withdraws(s, n, g.continuation, "superseded-by-explicit-user-input", op.now, op.w)
  {
    TurnStepOf(s, op);
    hide Step, Retire, L.ContinuationIndex, BudgetRemains;
    var own := L.NormalScope(s.coord.scope, s.coord.scope);
    var i :| i in s.coord.items && i.state == L.Pending && i.scope == s.coord.scope && (i.kind == L.UserPrompt || i.kind == L.Steering);
    var j :| 0 <= j < |s.coord.items| && s.coord.items[j] == i;
    assert L.ExplicitInput(s.coord.items[j], own);
  }

  /** A turn already admitted may begin again: the Goal stays, and its interval starts now. */
  lemma ReentersIt(s: State, op: Op, item: L.Item)
    requires op.BeginOp? && s.mem.Live? && s.mem.goal.continuation.Some? && s.turn.None? && op.item == Some(item)
    requires var g := s.mem.goal;
      var identity := g.continuation.value.identity;
      && g.status == Active && g.pendingUsage.None? && g.continuation.value.disposition == CursorAdmitting
      && BoundCursor(g, g.continuation.value) && BudgetRemains(g.tokenBudget, g.tokensUsed) && identity.scope == s.coord.scope
      && op.turnId == ContinuationTurn(identity) && op.boundary == op.turnId
      && item == R.Entry(identity, item.version, item.sequence, item.enqueuedAt).(state := item.state)
    ensures Step(s, op) == (s.(turn := Some(TurnRuntime(op.turnId, Some(op.now), {}))), Done)
  {
    TurnStepOf(s, op);
    hide Step, Retire, L.ContinuationIndex, BudgetRemains;
  }

  /**
   * A continuation runs its course: the terminal leaves cursor and item, the item is claimed, its turn begins on exactly the
   * Goal the terminal left, and the delivery is recorded.
   */
  lemma ContinuationCycle(s: State, terminal: Op, at: nat, later: nat, w: Writes)
    requires terminal.TerminalOp? && Step(s, terminal).1 == Done && Continues(s, terminal.event) && terminal.w.item && w.first
    requires Room(s.coord, CursorAfter(s, terminal.event, terminal.now)) && !Typed(s.coord) && s.mem.goal.revision < MAX_U64 - 3
    ensures var s1 := Step(s, terminal).0;
      var identity := CursorAfter(s, terminal.event, terminal.now);
      var (queue, claimed) := L.ClaimContinuation(s1.coord, ContinuationItem(identity), s1.coord.scope, true);
      && claimed == Success(Some(R.Entry(identity, 1, s.coord.nextSequence + 1, terminal.now).(state := L.Processing)))
      && var turn := ContinuationTurn(identity);
      var (s2, begun) := Step(s1.(coord := queue), BeginOp(turn, false, claimed.value, turn, at, w));
      var (s3, delivered) := Step(s2, DeliveredOp(ContinuationItem(identity), turn, later, true));
      && begun == Done && delivered == Done && s1.mem.Live? && s3.turn == Some(TurnRuntime(turn, Some(at), {}))
      && s3.mem == Live(s1.mem.goal.(revision := s1.mem.goal.revision + 2, updatedAt := later, lastTurnId := turn,
           continuation := Some(Continuation(identity, CursorDelivered, "transcript-receipt-committed", later))))
      && s3.disk == Some(s3.mem.goal)
  {
    hide Step, L.ClaimContinuation, Clear, BoundCursor, Typed, Room, After, BudgetRemains, CursorAfter, Continues, R.Entry;
    IsLive(s, terminal.event);
    var s1 := Step(s, terminal).0;
    var identity := CursorAfter(s, terminal.event, terminal.now);
    var turn := ContinuationTurn(identity);
    TerminalQueues(s, terminal);
    ReadyToClaim(s, terminal);
    ClaimsIt(s1.coord, identity);
    var (queue, claimed) := L.ClaimContinuation(s1.coord, ContinuationItem(identity), s1.coord.scope, true);
    var begin := BeginOp(turn, false, claimed.value, turn, at, w);
    BeginsIt(s1.(coord := queue), begin);
    DeliveredExact(Step(s1.(coord := queue), begin).0, DeliveredOp(ContinuationItem(identity), turn, later, true));
  }

  lemma IsLive(s: State, e: TerminalEvent)
    requires Continues(s, e)
    ensures s.mem.Live?
  {}

  /** The state a terminal leaves fits the claim and the begin that follow. */
  lemma ReadyToClaim(s: State, op: Op)
    requires op.TerminalOp? && Step(s, op).1 == Done && Continues(s, op.event) && op.w.item && !Typed(s.coord) && s.mem.goal.revision < MAX_U64 - 3
    requires Room(s.coord, CursorAfter(s, op.event, op.now))
    ensures var n := Step(s, op).0;
      var identity := CursorAfter(s, op.event, op.now);
      && n.mem.Live? && n.turn.None? && n.mem.goal.status == Active && n.mem.goal.pendingUsage.None? && n.mem.goal.revision < MAX_U64 - 2
      && n.mem.goal.continuation == Some(Continuation(identity, CursorPending, "", 0)) && BoundCursor(n.mem.goal, n.mem.goal.continuation.value)
      && BudgetRemains(n.mem.goal.tokenBudget, n.mem.goal.tokensUsed)
      && Clear(n.coord, identity, L.Pending) && n.coord.revision == identity.runtimeRevision + 1
      && n.coord.items[|n.coord.items| - 1] == R.Entry(identity, 1, s.coord.nextSequence + 1, op.now)
  {
    hide Step, Typed, WithInterval, Retire;
    TerminalExact(s, op);
    TerminalQueues(s, op);
    CursorValid(s, op.event, op.now);
    var n := Step(s, op).0;
    assert n.coord.items[..|n.coord.items| - 1] == s.coord.items;
    OneMoreTyped(s.coord, n.coord);
  }

  lemma OneMoreTyped(c: L.Coord, n: L.Coord)
    requires !Typed(c) && n.scope == c.scope && n.items != [] && n.items[..|n.items| - 1] == c.items && n.items[|n.items| - 1].kind == L.GoalContinuation
    ensures !Typed(n)
  {
    forall i | i in n.items ensures i in c.items || i.kind == L.GoalContinuation {
      var k :| 0 <= k < |n.items| && n.items[k] == i;
      if k < |c.items| { assert n.items[..|n.items| - 1][k] == i; }
    }
  }

  // ---------------------------------------------------------------- a crash between the two stores

  /**
   * A crash after the terminal wrote the Goal, with or without its queue item, is undone by a restart and a reconciliation:
   * the Goal is again what the terminal left, active and with its cursor, and the queue holds exactly one item for it.
   */
  lemma CrashAfterTerminal(c: L.Coord, ops: seq<Op>, terminal: Op, restart: Op, reconcile: Op)
    requires terminal.TerminalOp? && restart.RestartOp? && reconcile.ReconcileOp? && AllowedRun(Init(c), ops + [terminal])
    requires var s := Run(Init(c), ops).s;
      && Step(s, terminal).1 == Done && Continues(s, terminal.event) && s.mem.goal.revision < MAX_U64 - 2
      && restart.load == Readable(false) && restart.coord.scope == s.coord.scope
      && !reconcile.disabled && reconcile.w.item && reconcile.found.Some?
      && ContinuationItem(CursorAfter(s, terminal.event, terminal.now)) !in restart.coord.delivered + reconcile.found.value
      && R.Restorable(restart.coord, CursorAfter(s, terminal.event, terminal.now))
    ensures var s := Run(Init(c), ops).s;
      var s1 := Step(s, terminal).0;
      var (n, reply) := Step(Step(s1, restart).0, reconcile);
      && reply == Done && n.mem == s1.mem && n.disk == s1.disk && n.mem.Live? && n.mem.goal.status == Active
      && exists k :: 0 <= k < |n.coord.items| && R.Only(n.coord.items, k, CursorAfter(s, terminal.event, terminal.now))
  {
    hide *;
    var s := Run(Init(c), ops).s;
    var s1 := Step(s, terminal).0;
    K.StepMore(c, ops, terminal);
    LeftForRestart(s, terminal);
    K.RestartExact(c, ops + [terminal], restart);
    NothingToDo(s1.mem.goal, B.Of(s1.ledger, s1.mem.goal.goalId), restart.now);
    var s2 := Step(s1, restart).0;
    TurnStepOf(s2, reconcile);
    HeldIs(s2);
    R.ReconcileRequeues(s2, reconcile.found.value, reconcile.now, reconcile.w);
  }

  lemma HeldIs(s: State)
    ensures s.mem.Live? ==> Held(s.mem) == Some(s.mem.goal)
  {}

  lemma LeftForRestart(s: State, op: Op)
    requires op.TerminalOp? && Step(s, op).1 == Done && Continues(s, op.event) && s.mem.goal.revision < MAX_U64 - 2
    ensures var n := Step(s, op).0;
      var identity := CursorAfter(s, op.event, op.now);
      && n.mem.Live? && n.disk == Some(n.mem.goal) && n.mem.goal.revision < MAX_U64 - 1 && n.mem.goal.status == Active && n.mem.goal.pendingUsage.None?
      && n.mem.goal.continuation == Some(Continuation(identity, CursorPending, "", 0)) && D.CursorFits(n.mem.goal)
      && ValidCursorIdentity(identity) && identity.scope == s.coord.scope
  {
    hide Step, Typed, WithInterval, EnqueueCursor;
    TerminalExact(s, op);
    CursorValid(s, op.event, op.now);
  }

  lemma NothingToDo(g: Goal, records: seq<Record>, now: nat)
    requires g.pendingUsage.None? && g.continuation.Some? && g.continuation.value.disposition == CursorPending
    ensures K.Cold(K.CaughtUp(g, records, now), now) == g
  {}
}
