/**
 * The Goal lifecycle as a state machine (engine/goal_state.go, goal_runtime.go, goal_usage.go,
 * goal_continuation.go, goal_persistence.go).  Each function is one step under the engine's locks.
 * Outcomes of writes, the clock and fresh identities are arguments.
 */
module GoalMachine {
  import opened Basics
  import opened RuntimeTypes
  import opened UsageNormalize
  import opened GoalTypes
  import opened GoalUsage
  import L = InputLedger

  /** The in-memory Goal; `Unavailable` holds a stored record that failed validation, and what memory makes of it. */
  datatype Slot = Empty | Live(goal: Goal) | Unavailable(raw: Goal, shown: Goal)

  /** goalTurnRuntime. */
  datatype TurnRuntime = TurnRuntime(turnId: TurnId, activeSince: Option<nat>, waiting: set<string>)

  /** Where a provider call stands between its admission and the return of its gate token. */
  datatype Phase = Admitted | Recorded(record: Record) | Unreported

  datatype Call = Call(admission: Admission, phase: Phase)

  datatype State = State(
    mem: Slot,
    disk: Option<Goal>,
    turn: Option<TurnRuntime>,
    ledger: seq<Record>,
    gate: nat,
    calls: map<string, Call>,
    uncertain: bool,
    coord: L.Coord)

  datatype Reply = Done | Unchanged | Refused(error: GoalError)

  /** The outcomes of the writes one step may attempt, in the order it attempts them. */
  datatype Writes = Writes(first: bool, second: bool, reject: bool, settle: bool, item: bool)

  /** The turn that owns the boundary now, the turn this call claims to be, and whether Plan contains the session. */
  datatype Control = Control(boundary: TurnId, owner: TurnId, contained: bool)

  /** persistSessionCheckpointMessagesLocked followed by the assignment to goalState. */
  function Save(s: State, g: Goal): (r: State) {
    s.(mem := Live(g), disk := Some(g))
  }

  /** The Goal in memory, available or not. */
  function Held(mem: Slot): (r: Option<Goal>) {
    match mem
    case Empty => None
    case Live(g) => Some(g)
    case Unavailable(_, shown) => Some(shown)
  }

  /** The same on either kind of Goal: for an unavailable one the write stores its record again. */
  function Keep(s: State, g: Goal): (r: State) {
    if s.mem.Unavailable? then s.(mem := Unavailable(s.mem.raw, g), disk := Some(s.mem.raw)) else Save(s, g)
  }

  /** retireGoalContinuationItem: reject, then settle. */
  ghost function Retire(c: L.Coord, id: ItemId, code: string, at: nat, now: nat, w: Writes): (r: (L.Coord, bool)) {
    var (rejected, first) := L.RejectContinuation(c, id, code, at, now, w.reject);
    if first.Failure? then (rejected, false)
    else
      var (settled, second) := L.Settle(rejected, {id}, w.settle);
      (settled, second.Success?)
  }

  // ---------------------------------------------------------------- control transitions

  function CreateNext(mem: Slot, id: string, objective: string, budget: Option<nat>, contained: bool, now: nat): (r: Result<Goal, GoalError>) {
    if objective == "" then Failure(InvalidInput)
    else if budget == Some(0) then Failure(NoBudget)
    else if contained then Failure(PlanConflict)
    else if mem.Unavailable? || (mem.Live? && mem.goal.status != Complete) then Failure(AlreadyExists)
    else Success(Goal(id, objective, 1, Active, "", 1, budget, 0, 0, 0, 0, None, NO_TURN, 0, None, None, "", [], now, now))
  }

  /** mutableGoalStateError, and the refusal to change a completed Goal. */
  function Mutable(mem: Slot): (r: Result<Goal, GoalError>) {
    match mem
    case Empty => Failure(NotFound)
    case Unavailable(_, _) => Failure(GoalUnavailable)
    case Live(g) => if g.pendingUsage.Some? then Failure(AdmissionPending) else Success(g)
  }

  function EditNext(mem: Slot, objective: string, now: nat): (r: Result<Goal, GoalError>) {
    if objective == "" then Failure(InvalidInput)
    else
      match Mutable(mem)
      case Failure(e) => Failure(e)
      case Success(g) =>
        if g.status == Complete then Failure(GoalTerminal)
        else if g.objectiveRevision == MAX_U64 then Failure(RevisionExhausted)
        else
          match NextRevision(g, now)
          case Failure(e) => Failure(e)
          case Success(next) => Success(Forget(next.(objective := objective, objectiveRevision := g.objectiveRevision + 1)))
  }

  const USER_PAUSED := "user-paused"

  function PauseNext(mem: Slot, now: nat): (r: Result<Goal, GoalError>) {
    match Mutable(mem)
    case Failure(e) => Failure(e)
    case Success(g) =>
      if g.status == Complete then Failure(GoalTerminal)
      else if g.status == Paused && g.reasonCode == USER_PAUSED then Success(g)
      else
        match NextRevision(g, now)
        case Failure(e) => Failure(e)
        case Success(next) => Success(Forget(Restatus(next, Paused, USER_PAUSED)))
  }

  function ResumeNext(mem: Slot, contained: bool, now: nat): (r: Result<Goal, GoalError>) {
    match Mutable(mem)
    case Failure(e) => Failure(e)
    case Success(g) =>
      if contained then Failure(PlanConflict)
      else if g.status == Complete then Failure(GoalTerminal)
      else if g.status == Active then Success(g)
      else if g.status == UsageLimited then Failure(UsageUnavailable)
      else if !BudgetRemains(g.tokenBudget, g.tokensUsed) then Failure(NoBudget)
      else
        match NextRevision(g, now)
        case Failure(e) => Failure(e)
        case Success(next) => Success(Forget(Restatus(next, Active, "")))
  }

  function BudgetNext(mem: Slot, budget: nat, now: nat): (r: Result<Goal, GoalError>) {
    if budget == 0 then Failure(NoBudget)
    else
      match Mutable(mem)
      case Failure(e) => Failure(e)
      case Success(g) =>
        if g.status == Complete then Failure(GoalTerminal)
        else
          match NextRevision(g, now)
          case Failure(e) => Failure(e)
          case Success(next) =>
            var funded := next.(tokenBudget := Some(budget));
            Success(if g.status == Active && budget <= g.tokensUsed then Forget(Restatus(funded, BudgetLimited, BUDGET_EXHAUSTED)) else funded)
  }

  /** The reason a created Goal gives for retiring an open cursor. */
  const SUPERSEDED := "superseded-by-goal-control"

  /** goalService.transition. */
  ghost function Transition(s: State, control: Control, code: string, built: Result<Goal, GoalError>, w: Writes): (r: (State, Reply)) {
    if (control.boundary != NO_TURN && control.boundary != control.owner) || s.turn.Some? then (s, Refused(InFlight))
    else
      match built
      case Failure(e) => (s, Refused(e))
      case Success(next) =>
        if s.mem.Live? && next.goalId == s.mem.goal.goalId && next.revision == s.mem.goal.revision then (s, Unchanged)
        else if s.mem.Live? && OpenCursor(s.mem.goal.continuation) then
          var retired := Disposed(s.mem.goal.continuation.value, CursorRejected, code, next.updatedAt);
          if !w.first then (s, Refused(WriteFailed))
          else
            var saved := Save(s, next.(continuation := Some(retired)));
            (saved.(coord := Retire(s.coord, ItemOf(retired.identity), code, retired.at, next.updatedAt, w).0), Done)
        else if !w.first then (s, Refused(WriteFailed))
        else (Save(s, next), Done)
  }

  /** clearForTurn. */
  ghost function Clear(s: State, control: Control, now: nat, w: Writes): (r: (State, Reply)) {
    if control.boundary != NO_TURN && control.boundary != control.owner then (s, Refused(InFlight))
    else
      match Held(s.mem)
      case None => (s, Done)
      case Some(g) =>
        if g.pendingUsage.Some? then (s, Refused(AdmissionPending))
        else if !OpenCursor(g.continuation) then Erase(s, w.second)
        else
          match NextRevision(g, now)
          case Failure(e) => (s, Refused(e))
          case Success(next) =>
            var retired := Disposed(g.continuation.value, CursorRejected, "superseded-by-goal-clear", now);
            if !w.first then (s, Refused(WriteFailed))
            else
              var saved := Keep(s, next.(continuation := Some(retired)));
              var (coord, settled) := Retire(s.coord, ItemOf(retired.identity), retired.reason, now, now, w);
              if !settled then (saved.(coord := coord), Refused(ItemWriteFailed)) else Erase(saved.(coord := coord), w.second)
  }

  function Erase(s: State, ok: bool): (r: (State, Reply)) {
    if ok then (s.(mem := Empty, disk := None, turn := None), Done) else (s, Refused(WriteFailed))
  }

  // ---------------------------------------------------------------- turns

  function StartTurn(s: State, turnId: TurnId, now: nat): (r: State) {
    s.(turn := Some(TurnRuntime(turnId, Some(now), {})))
  }

  /** The Goal as a turn that is not a continuation leaves it at its start. */
  function TurnNext(g: Goal, turnId: TurnId, steering: bool, now: nat): (r: Result<Goal, GoalError>) {
    match NextRevision(g, now)
    case Failure(e) => Failure(e)
    case Success(next) =>
      var begun := (if steering then Forget(next) else next).(lastTurnId := turnId);
      Success(
        if OpenCursor(g.continuation) then
          begun.(continuation := Some(Disposed(g.continuation.value, CursorRejected,
            if steering then "superseded-by-user-steering" else "superseded-by-new-goal-turn", now)))
        else begun)
  }

  /** beginTurn. */
  ghost function BeginTurn(s: State, turnId: TurnId, steering: bool, item: Option<L.Item>, boundary: TurnId, now: nat, w: Writes): (r: (State, Reply)) {
    if turnId == NO_TURN || boundary != turnId then (s, Refused(InvalidInput))
    else if !s.mem.Live? || s.mem.goal.status != Active then (s, Unchanged)
    else if s.mem.goal.pendingUsage.Some? then (s, Refused(AdmissionPending))
    else if s.turn.Some? then (s, Refused(InFlight))
    else
      match item
      case Some(claim) => BeginContinuation(s, s.mem.goal, turnId, claim, now, w)
      case None =>
        match TurnNext(s.mem.goal, turnId, steering, now)
        case Failure(e) => (s, Refused(e))
        case Success(next) =>
          if !w.first then (s, Refused(WriteFailed))
          else
            var saved := Save(s, next);
            if steering && next.continuation.Some? && next.continuation.value.disposition == CursorRejected then
              var cursor := next.continuation.value;
              var (coord, settled) := Retire(s.coord, ItemOf(cursor.identity), cursor.reason, now, now, w);
              if settled then (StartTurn(saved.(coord := coord), turnId, now), Done)
              else (saved.(coord := coord), Refused(ItemWriteFailed))
            else (StartTurn(saved, turnId, now), Done)
  }

  /** validateGoalContinuationAdmission. */
  predicate ContinuationFits(g: Goal, item: L.Item, own: Scope, turnId: TurnId) {
    && g.status == Active
    && OpenCursor(g.continuation)
    && var c := g.continuation.value;
    && item.id == ItemOf(c.identity) && item.kind == L.GoalContinuation && item.payload == L.Cursor(c.identity)
    && item.scope == c.identity.scope && item.scope == own
    && turnId == ContinuationTurn(c.identity)
    && g.goalId == c.identity.goalId
    && g.objectiveRevision == c.identity.objectiveRevision
    && g.lastTerminalSequence == c.identity.terminalSequence
    && g.tokenBudget == c.identity.tokenBudget
    && g.tokensUsed == c.identity.tokensUsed
    && g.usageLedgerRevision == c.identity.usageLedgerRevision
    && g.continuationOrdinal == c.identity.ordinal
    && g.pendingUsage.None?
    && BudgetRemains(g.tokenBudget, g.tokensUsed)
    && (if c.disposition == CursorPending then g.revision == c.identity.goalRevision && g.lastTurnId == c.identity.predecessorTurn
        else g.revision > c.identity.goalRevision && g.lastTurnId == ContinuationTurn(c.identity))
  }

  /** beginContinuationTurn and rejectContinuationAdmissionLocked. */
  ghost function BeginContinuation(s: State, g: Goal, turnId: TurnId, item: L.Item, now: nat, w: Writes): (r: (State, Reply))
    requires s.mem == Live(g)
  {
    if !ContinuationFits(g, item, s.coord.scope, turnId) then (s, Refused(StaleContinuation))
    else
      var cursor := g.continuation.value;
      if cursor.disposition == CursorAdmitting then (StartTurn(s, turnId, now), Done)
      else
        match L.AdmissionItem(s.coord, item.id, s.coord.scope)
        case Failure(e) =>
          if e != L.ExplicitInputPending then (s, Refused(ClaimRefused))
          else
            (match NextRevision(g, now)
             case Failure(exhausted) => (s, Refused(exhausted))
             case Success(next) =>
               var rejected := Disposed(cursor, CursorRejected, "superseded-by-explicit-user-input", now);
               if !w.first then (s, Refused(WriteFailed))
               else
                 (Save(s, next.(continuation := Some(rejected)))
                  .(coord := Retire(s.coord, ItemOf(cursor.identity), rejected.reason, now, now, w).0), Refused(PermanentlyRejected)))
        case Success(claimed) =>
          if claimed.(state := L.Pending) != item.(state := L.Pending) || s.coord.revision <= cursor.identity.runtimeRevision then (s, Refused(ClaimRefused))
          else
            match NextRevision(g, now)
            case Failure(exhausted) => (s, Refused(exhausted))
            case Success(next) =>
              if !w.first then (s, Refused(WriteFailed))
              else
                var admitted := Disposed(cursor, CursorAdmitting, "continuation-turn-admitted", now);
                (StartTurn(Save(s, next.(lastTurnId := turnId, continuation := Some(admitted))), turnId, now), Done)
  }

  /** The guard of commitTurnEvidence. */
  function Evidence(s: State, goalId: string, objectiveRevision: nat, turnId: TurnId): (r: Result<Goal, GoalError>)
    ensures r.Success? ==> s.mem == Live(r.value) && s.turn.Some? && s.turn.value.turnId == turnId && r.value.status == Active
  {
    if turnId == NO_TURN then Failure(InvalidInput)
    else
      match Mutable(s.mem)
      case Failure(e) => Failure(e)
      case Success(g) =>
        if g.status != Active || g.goalId != goalId || g.objectiveRevision != objectiveRevision || g.lastTurnId != turnId ||
           s.turn.None? || s.turn.value.turnId != turnId then Failure(StaleEvidence)
        else Success(g)
  }

  function RequestCompletion(s: State, goalId: string, objectiveRevision: nat, turnId: TurnId, now: nat, ok: bool): (r: (State, Reply)) {
    match Evidence(s, goalId, objectiveRevision, turnId)
    case Failure(e) => (s, Refused(e))
    case Success(g) =>
      match NextRevision(g, now)
      case Failure(e) => (s, Refused(e))
      case Success(next) =>
        if !ok then (s, Refused(WriteFailed))
        else (Save(s, next.(pendingComplete := Some(CompletionRequest(turnId, objectiveRevision)))), Done)
  }

  const BLOCKER_TURNS: nat := 3

  /** The turns on record once this turn reports `key`. */
  function BlockerTurnsWith(g: Goal, key: string, turnId: TurnId): (r: seq<TurnId>) {
    var known := if g.blockerKey == key then g.blockerTurns else [];
    if turnId in known then known
    else
      var all := known + [turnId];
      if |all| < BLOCKER_TURNS then all else all[|all| - BLOCKER_TURNS..]
  }

  function ReportBlocker(s: State, goalId: string, objectiveRevision: nat, turnId: TurnId, key: string, reason: string, now: nat, ok: bool): (r: (State, Reply)) {
    if key == "" || reason == "" then (s, Refused(InvalidInput))
    else
      match Evidence(s, goalId, objectiveRevision, turnId)
      case Failure(e) => (s, Refused(e))
      case Success(g) =>
        match NextRevision(g, now)
        case Failure(e) => (s, Refused(e))
        case Success(next) =>
          var known := if g.blockerKey == key then g.blockerTurns else [];
          var turns := BlockerTurnsWith(g, key, turnId);
          var noted := next.(blockerKey := key, blockerTurns := turns);
          var blocks := turnId !in known && |known| + 1 >= BLOCKER_TURNS;
          // The interval is closed before the write, and stays closed if the write fails.
          var (written, turn) := if blocks then StopInterval(Restatus(noted, Blocked, "model-blocker"), s.turn.value, now) else (noted, s.turn.value);
          var halted := s.(turn := Some(turn));
          if g.blockerKey == key && |turns| == |g.blockerTurns| then (halted, Unchanged)
          else if ok then (Save(halted, written), Done)
          else (halted, Refused(WriteFailed))
  }

  const NANOS_PER_MILLI: nat := 1_000_000

  /** time.Time.Sub saturates at the largest Duration; Milliseconds truncates. */
  function ElapsedMillis(since: nat, now: nat): (r: nat) {
    if now <= since then 0
    else (if now - since > MAX_I64 then MAX_I64 else now - since) / NANOS_PER_MILLI
  }

  function AddMillis(total: nat, elapsed: nat): (r: nat) {
    if elapsed > 0 && total + elapsed > MAX_I64 then MAX_I64 else total + elapsed
  }

  /** stopActiveIntervalLocked. */
  function StopInterval(g: Goal, turn: TurnRuntime, now: nat): (r: (Goal, TurnRuntime))
    ensures r.0 == g.(rootActiveMillis := r.0.rootActiveMillis) && r.1 == turn.(activeSince := None)
  {
    if turn.activeSince.None? then (g, turn)
    else
      (g.(rootActiveMillis := AddMillis(g.rootActiveMillis, ElapsedMillis(turn.activeSince.value, now))),
       turn.(activeSince := None))
  }

  /** pauseTurnFor: a wait opens. */
  function OpenWait(s: State, reason: string, now: nat, ok: bool): (r: (State, Reply)) {
    if reason == "" then (s, Refused(InvalidInput))
    else if s.turn.None? || !s.mem.Live? || s.mem.goal.status != Active then (s, Unchanged)
    else if reason in s.turn.value.waiting then (s, Unchanged)
    else
      match NextRevision(s.mem.goal, now)
      case Failure(e) => (s, Refused(e))
      case Success(next) =>
        var (stopped, turn) := if s.turn.value.waiting == {} then StopInterval(next, s.turn.value, now) else (next, s.turn.value);
        if !ok then (s, Refused(WriteFailed))
        else (Save(s, stopped).(turn := Some(turn.(waiting := turn.waiting + {reason}))), Done)
  }

  /** resumeTurnFor: a wait closes, and the interval restarts when it was the last one. */
  function CloseWait(s: State, reason: string, now: nat, ok: bool): (r: (State, Reply)) {
    if reason == "" then (s, Refused(InvalidInput))
    else if s.turn.None? || !s.mem.Live? || reason !in s.turn.value.waiting then (s, Unchanged)
    else
      match NextRevision(s.mem.goal, now)
      case Failure(e) => (s, Refused(e))
      case Success(next) =>
        var waiting := s.turn.value.waiting - {reason};
        var since := if waiting == {} && next.status == Active then Some(now) else s.turn.value.activeSince;
        if !ok then (s, Refused(WriteFailed))
        else (Save(s, next).(turn := Some(s.turn.value.(waiting := waiting, activeSince := since))), Done)
  }

  function AbandonTurn(s: State, turnId: TurnId): (r: (State, Reply)) {
    if s.turn.Some? && s.turn.value.turnId == turnId then (s.(turn := None), Done) else (s, Unchanged)
  }

  /** A terminal event with the identity it was emitted under and the runtime sequence before it. */
  datatype TerminalEvent = TerminalEvent(goalId: string, objectiveRevision: nat, turnId: TurnId, reason: TerminalReason, sequence: nat)

  predicate SteeringPending(c: L.Coord) {
    exists i :: i in L.Snapshot(c, c.scope) && (i.kind == L.UserPrompt || i.kind == L.Steering)
  }

  /** Whether the terminal boundary turns this Goal complete. */
  predicate Completes(g: Goal, turn: TurnRuntime, e: TerminalEvent, c: L.Coord, enabled: bool) {
    && enabled
    && e.reason == Completed
    && g.pendingComplete == Some(CompletionRequest(e.turnId, e.objectiveRevision))
    && g.pendingUsage.None?
    && !SteeringPending(c)
    && turn.waiting == {}
  }

  /** goalContinuationEligible. */
  predicate Eligible(g: Goal, turn: TurnRuntime, reason: TerminalReason) {
    && g.status == Active
    && reason == Completed
    && turn.waiting == {}
    && g.pendingComplete.None?
    && g.pendingUsage.None?
    && BudgetRemains(g.tokenBudget, g.tokensUsed)
  }

  /** newGoalContinuationCursor. */
  function Mint(g: Goal, c: L.Coord, reason: TerminalReason, sequence: nat, now: nat): (r: Result<Continuation, GoalError>) {
    if g.continuationOrdinal == MAX_U64 then Failure(OrdinalExhausted)
    else
      var identity := CursorIdentity(g.goalId, g.objectiveRevision, g.revision, g.status, c.scope, g.lastTurnId, sequence, reason,
                                     now, g.tokenBudget, g.tokensUsed, g.usageLedgerRevision, g.continuationOrdinal + 1, c.revision);
      var cursor := Continuation(identity, CursorPending, "", 0);
      if ValidContinuation(cursor) then Success(cursor) else Failure(InvalidIdentity)
  }

  /** The Goal at its terminal boundary, before a continuation is minted. */
  function Closed(g: Goal, turn: TurnRuntime, e: TerminalEvent, c: L.Coord, enabled: bool, now: nat): (r: Goal)
    requires g.revision < MAX_U64
  {
    var next := StopInterval(g.(revision := g.revision + 1, updatedAt := now), turn, now).0.(lastTerminalSequence := e.sequence + 2);
    var kept :=
      if e.reason != Completed && next.pendingComplete.Some? && next.pendingComplete.value.turnId == e.turnId
      then next.(pendingComplete := None) else next;
    if Completes(kept, turn, e, c, enabled) then Forget(Restatus(kept, Complete, "")) else kept
  }

  function Settled(g: Goal, turn: TurnRuntime, e: TerminalEvent, c: L.Coord, enabled: bool, now: nat): (r: Result<Goal, GoalError>)
    requires g.revision < MAX_U64
  {
    var next := Closed(g, turn, e, c, enabled, now);
    if !Eligible(next, turn, e.reason) then Success(next)
    else
      match Mint(next, c, e.reason, e.sequence + 2, now)
      case Failure(error) => Failure(error)
      case Success(cursor) => Success(next.(continuationOrdinal := cursor.identity.ordinal, continuation := Some(cursor)))
  }

  /** goalContinuationRuntimeItem. */
  function CursorItem(c: Continuation): (r: L.Item) {
    L.Item(0, ItemOf(c.identity), L.GoalContinuation, L.Later, L.DefaultDelivery, c.identity.scope, 0, 0, L.Pending,
           L.Label(true, "goal", "p24.3-durable-continuation"), L.Cursor(c.identity), None)
  }

  /** enqueueDormantGoalContinuation. */
  ghost function EnqueueCursor(c: L.Coord, cursor: Continuation, now: nat, ok: bool): (r: (L.Coord, Result<seq<L.Item>, L.InputError>)) {
    L.Enqueue(c, [CursorItem(cursor)], L.Mode(Some((L.GoalContinuation, 1)), false), now, ok)
  }

  /** commitGoalTerminalEvents. */
  ghost function Terminal(s: State, e: TerminalEvent, enabled: bool, now: nat, w: Writes): (r: (State, Reply)) {
    if s.turn.None? || !s.mem.Live? || s.turn.value.turnId != e.turnId || s.mem.goal.goalId != e.goalId ||
       s.mem.goal.objectiveRevision != e.objectiveRevision then (s, Refused(StaleEvidence))
    else if e.sequence > MAX_U64 - 2 then (s, Refused(SequenceExhausted))
    else if s.mem.goal.revision >= MAX_U64 then (s, Refused(RevisionExhausted))
    else
      match Settled(s.mem.goal, s.turn.value, e, s.coord, enabled, now)
      case Failure(error) => (s, Refused(error))
      case Success(next) =>
        if !w.first then (s, Refused(WriteFailed))
        else
          var saved := Save(s, next).(turn := None);
          if next.continuation.Some? && next.continuation.value.disposition == CursorPending
          then (saved.(coord := EnqueueCursor(s.coord, next.continuation.value, now, w.item).0), Done)
          else (saved, Done)
  }

  function MarkDelivered(s: State, id: ItemId, turnId: TurnId, now: nat, ok: bool): (r: (State, Reply)) {
    if !s.mem.Live? || s.mem.goal.continuation.None? then (s, Refused(StaleContinuation))
    else
      var cursor := s.mem.goal.continuation.value;
      if ItemOf(cursor.identity) != id || ContinuationTurn(cursor.identity) != turnId || cursor.disposition != CursorAdmitting
      then (s, Refused(StaleContinuation))
      else
        match NextRevision(s.mem.goal, now)
        case Failure(e) => (s, Refused(e))
        case Success(next) =>
          if !ok then (s, Refused(WriteFailed))
          else (Save(s, next.(continuation := Some(Disposed(cursor, CursorDelivered, "transcript-receipt-committed", now)))), Done)
  }

  /** pauseForCancellation. */
  ghost function CancelPause(s: State, now: nat, w: Writes): (r: (State, Reply)) {
    if !s.mem.Live? || s.mem.goal.status != Active then (s, Unchanged)
    else
      match NextRevision(s.mem.goal, now)
      case Failure(e) => (s, Refused(e))
      case Success(next) =>
        var paused := Forget(Restatus(next, Paused, "user-cancelled"));
        // The interval is closed before the write, and stays closed if the write fails.
        var (stopped, turn) :=
          if s.turn.Some? then (var (g, t) := StopInterval(paused, s.turn.value, now); (g, Some(t))) else (paused, None);
        var halted := s.(turn := turn);
        if !w.first then (halted, Refused(WriteFailed))
        else if OpenCursor(next.continuation) then
          var retired := Disposed(next.continuation.value, CursorRejected, "superseded-by-user-cancel", now);
          (Save(halted, stopped.(continuation := Some(retired)))
           .(coord := Retire(s.coord, ItemOf(retired.identity), retired.reason, now, now, w).0), Done)
        else (Save(halted, stopped), Done)
  }

  // ---------------------------------------------------------------- provider usage

  /** What loading the transcript yields now. */
  datatype Load = Unreadable | Readable(corrupt: bool)

  function LoadLedger(s: State, load: Load): (r: Option<Loaded>) {
    match load
    case Unreadable => None
    case Readable(corrupt) => Some(Loaded(s.ledger, corrupt))
  }

  function CheckAdmission(mem: Slot, r: Reporter): (e: Option<GoalError>)
    ensures e.None? ==> mem.Live? && mem.goal.status == Active
  {
    match mem
    case Empty => Some(NotFound)
    case Unavailable(_, _) => Some(GoalUnavailable)
    case Live(g) =>
      match CheckReporter(g, r)
      case Some(e) => Some(e)
      case None => if g.status != Active then Some(NotActive) else None
  }

  /** admitProviderUsage.  A free gate token is taken; every refusal gives it back. */
  function Admit(s: State, r: Reporter, roundId: string, attempt: Attempt, callId: string, load: Load, now: nat, w: Writes): (out: (State, Reply)) {
    if r.revoked then (s, Refused(CapabilityUnavailable))
    else if roundId == "" || callId == "" then (s, Refused(InvalidIdentity))
    else if s.gate == 0 then (s, Refused(GateBusy))
    else if s.uncertain then (s, Refused(CoverageIncomplete))
    else if CheckAdmission(s.mem, r).Some? then (s, Refused(CheckAdmission(s.mem, r).value))
    else if s.mem.goal.pendingUsage.None? then AdmitNext(s, s.mem.goal, r, roundId, attempt, callId, now, w.second)
    else
      var rec := Reconcile(s.mem.goal, LoadLedger(s, load), now);
      if rec.changed && !w.first then (s, Refused(WriteFailed))
      else
        var s1 := if rec.changed then Save(s, rec.goal) else s;
        if rec.error.Some? then (s1, Refused(rec.error.value))
        else if CheckAdmission(s1.mem, r).Some? then (s1, Refused(CheckAdmission(s1.mem, r).value))
        else if s1.mem.goal.pendingUsage.Some? then (s1, Refused(AdmissionPending))
        else AdmitNext(s1, s1.mem.goal, r, roundId, attempt, callId, now, w.second)
  }

  function AdmitNext(s: State, g: Goal, r: Reporter, roundId: string, attempt: Attempt, callId: string, now: nat, ok: bool): (out: (State, Reply)) {
    if g.usageLedgerRevision == MAX_U64 then (s, Refused(LedgerExhausted))
    else
      match NextRevision(g, now)
      case Failure(e) => (s, Refused(e))
      case Success(next) =>
        var call := CallIdentity(r.goalId, r.objectiveRevision, r.rootSessionId, r.rootThreadId, r.subject, r.turnId, roundId, attempt, callId);
        var admission := Admission(g.usageLedgerRevision + 1, call, now);
        if !ValidAdmission(admission) then (s, Refused(InvalidIdentity))
        else if !ok then (s, Refused(WriteFailed))
        else
          (Save(s, next.(pendingUsage := Some(admission))).(gate := 0, calls := s.calls[callId := Call(admission, Admitted)]), Done)
  }

  /** How an append to the usage ledger ended; a failed append may or may not have left the record behind. */
  datatype Append = Appended | Lost | Uncertain

  /** The first half of completeProviderUsage, up to the ledger append. */
  function RecordUsage(s: State, callId: string, usage: Option<Usage>, append: Append): (r: (State, Reply)) {
    if callId !in s.calls || s.calls[callId].phase != Admitted then (s, Unchanged)
    else
      var call := s.calls[callId];
      match Normalize(usage)
      case Failure(_) => (s.(calls := s.calls[callId := call.(phase := Unreported)]), Refused(CoverageIncomplete))
      case Success(tokens) =>
        var record := Record(call.admission.ledgerRevision, call.admission.call, tokens);
        if !ValidRecord(record) then (s.(calls := s.calls[callId := call.(phase := Unreported)]), Refused(CoverageIncomplete))
        else
          match append
          case Appended => (s.(ledger := s.ledger + [record], calls := s.calls[callId := call.(phase := Recorded(record))]), Done)
          case Lost => (s.(calls := s.calls[callId := call.(phase := Unreported)]), Refused(WriteFailed))
          case Uncertain =>
            (s.(ledger := s.ledger + [record], calls := s.calls[callId := call.(phase := Unreported)]), Refused(WriteFailed))
  }

  /** settle's deferred send: the call is over and its token goes back. */
  function ReturnToken(s: State, callId: string): (r: State) {
    s.(calls := s.calls - {callId}, gate := s.gate + 1)
  }

  /** The second half of completeProviderUsage. */
  function CountUsage(s: State, callId: string, now: nat, ok: bool): (r: (State, Reply)) {
    if callId !in s.calls || !s.calls[callId].phase.Recorded? then (s, Unchanged)
    else
      var call, over := s.calls[callId], ReturnToken(s, callId);
      var record := call.phase.record;
      if !s.mem.Live? then (over, Refused(NotFound))
      else if s.mem.goal.pendingUsage.None? then
        if s.mem.goal.usageLedgerRevision >= record.ledgerRevision then (over, Done) else (over, Refused(AdmissionPending))
      else if s.mem.goal.pendingUsage != Some(call.admission) then (over, Refused(StaleCall))
      else
        match Apply(s.mem.goal, record, now)
        case Failure(e) => (over, Refused(e))
        case Success(next) => if ok then (Save(over, next), Done) else (over, Refused(WriteFailed))
  }

  function ReleaseCall(s: State, callId: string, now: nat, ok: bool): (r: (State, Reply)) {
    if callId !in s.calls || s.calls[callId].phase != Admitted then (s, Unchanged)
    else
      var call, over := s.calls[callId], ReturnToken(s, callId);
      if !s.mem.Live? || s.mem.goal.pendingUsage != Some(call.admission) then (over, Refused(StaleCall))
      else
        match NextRevision(s.mem.goal, now)
        case Failure(e) => (over, Refused(e))
        case Success(next) => if ok then (Save(over, next.(pendingUsage := None)), Done) else (over, Refused(WriteFailed))
  }

  function MarkAmbiguous(s: State, callId: string, now: nat, ok: bool): (r: (State, Reply)) {
    if callId !in s.calls || s.calls[callId].phase.Recorded? then (s, Unchanged)
    else
      var call, over := s.calls[callId], ReturnToken(s, callId).(uncertain := true);
      if !s.mem.Live? || s.mem.goal.pendingUsage != Some(call.admission) then (over, Refused(StaleCall))
      else
        match NextRevision(s.mem.goal, now)
        case Failure(e) => (over, Refused(e))
        case Success(next) =>
          if ok then (Save(over, Forget(Restatus(next, UsageLimited, COVERAGE_INCOMPLETE))), Done) else (over, Refused(WriteFailed))
  }

  // ---------------------------------------------------------------- persistence and restore

  /** validatePersistedGoalState for the current version. */
  predicate ValidGoal(g: Goal) {
    && g.goalId != "" && g.objective != ""
    && 0 < g.objectiveRevision <= g.revision
    && g.tokenBudget != Some(0)
    && (g.status == Active ==> BudgetRemains(g.tokenBudget, g.tokensUsed))
    && |g.blockerTurns| <= BLOCKER_TURNS
    && (g.blockerKey == "" <==> g.blockerTurns == [])
    && NO_TURN !in g.blockerTurns
    && (forall i, j :: 0 <= i < j < |g.blockerTurns| ==> g.blockerTurns[i] != g.blockerTurns[j])
    && 0 < g.createdAt <= g.updatedAt
    && (g.pendingComplete.Some? ==>
          g.pendingComplete.value.turnId != NO_TURN && g.pendingComplete.value.objectiveRevision == g.objectiveRevision)
    && (g.continuation.Some? ==> BoundCursor(g, g.continuation.value))
    && (g.pendingUsage.Some? ==> BoundAdmission(g, g.pendingUsage.value))
  }

  predicate BoundCursor(g: Goal, c: Continuation) {
    && ValidContinuation(c)
    && c.identity.goalId == g.goalId
    && c.identity.objectiveRevision == g.objectiveRevision
    && c.identity.ordinal == g.continuationOrdinal
    && c.identity.terminalSequence == g.lastTerminalSequence
    && c.identity.tokenBudget == g.tokenBudget
    && c.identity.tokensUsed == g.tokensUsed
    && c.identity.usageLedgerRevision == g.usageLedgerRevision
    && (match c.disposition
        case CursorPending =>
          g.status == Active && c.identity.predecessorTurn == g.lastTurnId && c.identity.goalRevision == g.revision
        case CursorAdmitting =>
          g.status == Active && g.lastTurnId == ContinuationTurn(c.identity) && c.identity.goalRevision < g.revision
        case _ => c.identity.goalRevision <= g.revision)
  }

  predicate BoundAdmission(g: Goal, a: Admission) {
    && ValidAdmission(a)
    && a.call.goalId == g.goalId
    && a.call.objectiveRevision == g.objectiveRevision
    && a.ledgerRevision == g.usageLedgerRevision + 1
    && a.call.turnId == g.lastTurnId
    && g.createdAt <= a.admittedAt <= g.updatedAt
  }

  const COLD := "cold-continuation-unavailable"

  /** unavailableGoalState. */
  function Withheld(raw: Goal): (r: Slot) {
    Unavailable(raw, Forget(Restatus(raw, Paused, "corrupt-state")))
  }

  /** restorePersistedGoalStateWithUsage on a root session. */
  function RestoreGoal(disk: Option<Goal>, loaded: Option<Loaded>, now: nat): (r: Slot) {
    match disk
    case None => Empty
    case Some(raw) =>
      if !ValidGoal(raw) then Withheld(raw)
      else
        var g := Reconcile(raw, loaded, now).goal;
        if g.status == Active && !OpenCursor(g.continuation) then
          if g.revision == MAX_U64 then Withheld(raw)
          else Live(Forget(Restatus(g, Paused, COLD).(revision := g.revision + 1, updatedAt := now)))
        else Live(g)
  }

  function Persisted(mem: Slot): (r: Option<Goal>) {
    match mem
    case Empty => None
    case Live(g) => Some(g)
    case Unavailable(raw, _) => Some(raw)
  }

  /** A crash and a restart: memory is rebuilt from the checkpoint and the ledger, then checkpointed. */
  function Restart(s: State, coord: L.Coord, load: Load, now: nat, ok: bool): (r: (State, Reply)) {
    var mem := RestoreGoal(s.disk, LoadLedger(s, load), now);
    (State(mem, if ok then Persisted(mem) else s.disk, None, s.ledger, 1, map[], false, coord), if ok then Done else Refused(WriteFailed))
  }

  /** Any session checkpoint stores the current Goal again. */
  function Checkpoint(s: State, ok: bool): (r: (State, Reply)) {
    if ok then (s.(disk := Persisted(s.mem)), Done) else (s, Refused(WriteFailed))
  }

  // ---------------------------------------------------------------- continuation recovery

  /** pauseRestoredGoalContinuation. */
  ghost function PauseRestored(s: State, disposition: Disposition, reason: string, now: nat, w: Writes): (r: (State, Reply))
    requires Held(s.mem).Some? && Held(s.mem).value.continuation.Some?
  {
    var cursor := Held(s.mem).value.continuation.value;
    match NextRevision(Held(s.mem).value, now)
    case Failure(e) => (s, Refused(e))
    case Success(next) =>
      if !w.first then (s, Refused(WriteFailed))
      else
        var saved := Keep(s, Forget(Restatus(next, Paused, COLD).(continuation := Some(Disposed(cursor, disposition, reason, now)))));
        if disposition == CursorRejected then
          var (coord, settled) := Retire(s.coord, ItemOf(cursor.identity), reason, now, now, w);
          (saved.(coord := coord), if settled then Done else Refused(ItemWriteFailed))
        else
          var (coord, settled) := L.Settle(s.coord, {ItemOf(cursor.identity)}, w.settle);
          (saved.(coord := coord), if settled.Success? then Done else Refused(ItemWriteFailed))
  }

  /** reconcileRestoredGoalContinuation; `found` is the transcript's answer, `disabled` the capability check. */
  ghost function ReconcileContinuation(s: State, found: Option<set<ItemId>>, disabled: bool, now: nat, w: Writes): (r: (State, Reply)) {
    if Held(s.mem).None? || Held(s.mem).value.continuation.None? then (s, Done)
    else if found.None? then (s, Refused(ItemWriteFailed))
    else
      var cursor := Held(s.mem).value.continuation.value;
      var id := ItemOf(cursor.identity);
      var (resolved, covered) := L.ResolveDelivered(s.coord, {id}, found.value);
      var s1 := s.(coord := resolved);
      if id in covered then
        if cursor.disposition != CursorDelivered then PauseRestored(s1, CursorDelivered, "transcript-receipt-recovered", now, w)
        else
          var (coord, settled) := L.Settle(resolved, {id}, w.settle);
          (s1.(coord := coord), if settled.Success? then Done else Refused(ItemWriteFailed))
      else if disabled then
        PauseRestored(s1, if cursor.disposition == CursorDelivered then CursorDelivered else CursorRejected, "goal-capability-disabled", now, w)
      else
        match cursor.disposition
        case CursorRejected => RetireRestored(s1, cursor, now, w)
        case CursorDelivered => RetireRestored(s1, cursor, now, w)
        case _ => Requeue(s1, now, w)
  }

  /** An open cursor gets its item back, or is paused when it cannot have one. */
  ghost function Requeue(s: State, now: nat, w: Writes): (r: (State, Reply))
    requires Held(s.mem).Some? && Held(s.mem).value.continuation.Some?
  {
    var (coord, queued) := EnqueueCursor(s.coord, Held(s.mem).value.continuation.value, now, w.item);
    if queued.Success? then (s.(coord := coord), Done) else PauseRestored(s, CursorRejected, "recovery-item-conflict", now, w)
  }

  ghost function RetireRestored(s: State, cursor: Continuation, now: nat, w: Writes): (r: (State, Reply)) {
    var code := if cursor.reason == "" then "restored-terminal-disposition" else cursor.reason;
    var (coord, settled) := Retire(s.coord, ItemOf(cursor.identity), code, if cursor.at == 0 then now else cursor.at, now, w);
    (s.(coord := coord), if settled then Done else Refused(ItemWriteFailed))
  }
}
