/** Runs of the Goal machine, with a history that the invariants speak about. */
module GoalRuns {
  import opened Basics
  import opened RuntimeTypes
  import opened UsageNormalize
  import opened GoalTypes
  import opened GoalMachine
  import L = InputLedger

  /** One step.  `InputOp` stands for whatever the rest of the program does to the input coordinator. */
  datatype Op =
    | CreateOp(control: Control, id: string, objective: string, budget: Option<nat>, now: nat, w: Writes)
    | EditOp(control: Control, objective: string, now: nat, w: Writes)
    | PauseOp(control: Control, now: nat, w: Writes)
    | ResumeOp(control: Control, now: nat, w: Writes)
    | BudgetOp(control: Control, newBudget: nat, now: nat, w: Writes)
    | ClearOp(control: Control, now: nat, w: Writes)
    | BeginOp(turnId: TurnId, steering: bool, item: Option<L.Item>, boundary: TurnId, now: nat, w: Writes)
    | CompletionOp(goalId: string, objectiveRevision: nat, turnId: TurnId, now: nat, ok: bool)
    | BlockerOp(goalId: string, objectiveRevision: nat, turnId: TurnId, key: string, reason: string, now: nat, ok: bool)
    | OpenWaitOp(reason: string, now: nat, ok: bool)
    | CloseWaitOp(reason: string, now: nat, ok: bool)
    | AbandonOp(turnId: TurnId, now: nat)
    | TerminalOp(event: TerminalEvent, enabled: bool, now: nat, w: Writes)
    | DeliveredOp(itemId: ItemId, turnId: TurnId, now: nat, ok: bool)
    | CancelOp(now: nat, w: Writes)
    | AdmitOp(reporter: Reporter, roundId: string, attempt: Attempt, callId: string, load: Load, now: nat, w: Writes)
    | RecordOp(callId: string, usage: Option<Usage>, append: Append, now: nat)
    | CountOp(callId: string, now: nat, ok: bool)
    | ReleaseOp(callId: string, now: nat, ok: bool)
    | AmbiguousOp(callId: string, now: nat, ok: bool)
    | RestartOp(coord: L.Coord, load: Load, now: nat, ok: bool)
    | CheckpointOp(now: nat, ok: bool)
    | ReconcileOp(found: Option<set<ItemId>>, disabled: bool, now: nat, w: Writes)
    | InputOp(coord: L.Coord, now: nat)

  ghost function Step(s: State, op: Op): (r: (State, Reply)) {
    match op
    case CreateOp(control, id, objective, budget, now, w) =>
      Transition(s, control, SUPERSEDED, CreateNext(s.mem, id, objective, budget, control.contained, now), w)
    case EditOp(control, objective, now, w) =>
      Transition(s, control, "superseded-by-objective-edit", EditNext(s.mem, objective, now), w)
    case PauseOp(control, now, w) => Transition(s, control, "superseded-by-goal-pause", PauseNext(s.mem, now), w)
    case ResumeOp(control, now, w) => Transition(s, control, "superseded-by-goal-resume", ResumeNext(s.mem, control.contained, now), w)
    case BudgetOp(control, budget, now, w) => Transition(s, control, "superseded-by-budget-change", BudgetNext(s.mem, budget, now), w)
    case ClearOp(control, now, w) => Clear(s, control, now, w)
    case BeginOp(turnId, steering, item, boundary, now, w) => BeginTurn(s, turnId, steering, item, boundary, now, w)
    case CompletionOp(goalId, objectiveRevision, turnId, now, ok) => RequestCompletion(s, goalId, objectiveRevision, turnId, now, ok)
    case BlockerOp(goalId, objectiveRevision, turnId, key, reason, now, ok) =>
      ReportBlocker(s, goalId, objectiveRevision, turnId, key, reason, now, ok)
    case OpenWaitOp(reason, now, ok) => OpenWait(s, reason, now, ok)
    case CloseWaitOp(reason, now, ok) => CloseWait(s, reason, now, ok)
    case AbandonOp(turnId, _) => AbandonTurn(s, turnId)
    case TerminalOp(event, enabled, now, w) => Terminal(s, event, enabled, now, w)
    case DeliveredOp(itemId, turnId, now, ok) => MarkDelivered(s, itemId, turnId, now, ok)
    case CancelOp(now, w) => CancelPause(s, now, w)
    case AdmitOp(reporter, roundId, attempt, callId, load, now, w) => Admit(s, reporter, roundId, attempt, callId, load, now, w)
    case RecordOp(callId, usage, append, _) => RecordUsage(s, callId, usage, append)
    case CountOp(callId, now, ok) => CountUsage(s, callId, now, ok)
    case ReleaseOp(callId, now, ok) => ReleaseCall(s, callId, now, ok)
    case AmbiguousOp(callId, now, ok) => MarkAmbiguous(s, callId, now, ok)
    case RestartOp(coord, load, now, ok) => Restart(s, coord, load, now, ok)
    case CheckpointOp(_, ok) => Checkpoint(s, ok)
    case ReconcileOp(found, disabled, now, w) => ReconcileContinuation(s, found, disabled, now, w)
    case InputOp(coord, _) => (s.(coord := coord), Done)
  }

  // ---------------------------------------------------------------- history

  /** What a blocker depends on: reports, and the events that must not come between them. */
  datatype Event = Report(turnId: TurnId, key: string) | Break

  datatype History = History(
    clock: nat,                              // the time of the last step
    free: nat,                               // turn time of this Goal with no wait open, in nanoseconds
    log: seq<Event>,                         // what led to the Goal in memory
    diskLog: seq<Event>,                     // what led to the Goal on disk
    requests: set<(string, nat, TurnId)>,    // committed completion requests: Goal, objective revision, turn
    saved: map<(string, nat), Goal>,         // the Goal written under each identity and revision
    minted: map<CursorIdentity, Goal>,       // the Goal each terminal left when it minted a cursor
    ids: set<string>,                        // Goal identities ever used
    admitted: set<Admission>,                // provider calls ever admitted
    released: set<Admission>)                // those released before dispatch

  datatype World = World(s: State, h: History)

  predicate SameGoal(a: Slot, b: Slot) {
    a.Live? && b.Live? && a.goal.goalId == b.goal.goalId
  }

  /** Time since the last step counts when a turn is running with no wait open. */
  function FreeTime(h: History, s: State, now: nat): (r: nat) {
    if s.turn.Some? && s.turn.value.waiting == {} && now >= h.clock then h.free + (now - h.clock) else h.free
  }

  predicate Breaks(op: Op) {
    op.EditOp? || op.PauseOp? || op.ResumeOp? || (op.BeginOp? && op.steering && op.item.None?)
  }

  function Logged(h: History, s: State, op: Op, next: State, reply: Reply): (r: seq<Event>) {
    if op.RestartOp? then h.diskLog
    else if Persisted(next.mem) == Persisted(s.mem) then h.log
    else if !SameGoal(s.mem, next.mem) then []
    else if op.BlockerOp? && reply == Done then h.log + [Report(op.turnId, op.key)]
    else if Breaks(op) then h.log + [Break]
    else h.log
  }

  function Observe(h: History, s: State, op: Op, next: State, reply: Reply): (r: History) {
    var log := Logged(h, s, op, next, reply);
    History(
      op.now,
      if SameGoal(s.mem, next.mem) || Persisted(next.mem) == Persisted(s.mem) || op.RestartOp? then FreeTime(h, s, op.now) else 0,
      log,
      if next.disk == Persisted(next.mem) then log else h.diskLog,
      if op.CompletionOp? && reply == Done then h.requests + {(op.goalId, op.objectiveRevision, op.turnId)} else h.requests,
      if next.disk.Some? then h.saved[(next.disk.value.goalId, next.disk.value.revision) := next.disk.value] else h.saved,
      if op.TerminalOp? && reply == Done && next.mem.Live? && next.mem.goal.continuation.Some? &&
         next.mem.goal.continuation.value.disposition == CursorPending
      then h.minted[next.mem.goal.continuation.value.identity := next.mem.goal] else h.minted,
      if next.mem.Live? then h.ids + {next.mem.goal.goalId} else h.ids,
      if op.AdmitOp? && reply == Done && op.callId in next.calls then h.admitted + {next.calls[op.callId].admission} else h.admitted,
      if op.ReleaseOp? && reply == Done && op.callId in s.calls then h.released + {s.calls[op.callId].admission} else h.released)
  }

  ghost function Next(w: World, op: Op): (r: World) {
    var (s, reply) := Step(w.s, op);
    World(s, Observe(w.h, w.s, op, s, reply))
  }

  /** What the environment owes: a monotone non-zero clock, and a fresh identity for a new Goal. */
  predicate Allowed(w: World, op: Op) {
    && op.now >= w.h.clock && op.now > 0
    && (op.CreateOp? ==> op.id != "" && op.id !in w.h.ids)
  }

  ghost function Run(w: World, ops: seq<Op>): (r: World)
    decreases |ops|
  {
    if ops == [] then w else Run(Next(w, ops[0]), ops[1..])
  }

  ghost predicate AllowedRun(w: World, ops: seq<Op>)
    decreases |ops|
  {
    ops != [] ==> Allowed(w, ops[0]) && AllowedRun(Next(w, ops[0]), ops[1..])
  }

  /** A fresh session: no Goal, an empty ledger, a free gate. */
  function Init(coord: L.Coord): (w: World) {
    World(State(Empty, None, None, [], 1, map[], false, coord), History(0, 0, [], [], {}, map[], map[], {}, {}, {}))
  }
}
