/**
 * goalService and the engine fields it owns (engine/goal_state.go, goal_runtime.go, goal_usage.go,
 * goal_continuation.go).  Every method is one call under planMu and goalMu; it writes before it changes memory, and
 * is proved equal to its step of the Goal machine.  Write outcomes and the clock are arguments.
 */
module GoalServices {
  import opened Basics
  import opened RuntimeTypes
  import opened UsageNormalize
  import opened GoalTypes
  import opened GoalUsage
  import opened GoalMachine
  import opened InputCoordinator
  import L = InputLedger

  class GoalService {
    var goalState: Slot
    var checkpoint: Option<Goal>
    var turnRuntime: Option<TurnRuntime>
    var ledger: seq<Record>
    var gate: nat
    var calls: map<string, Call>
    var uncertain: bool
    const coordinator: RuntimeInputCoordinator

    ghost function View(): (s: State)
      reads this, coordinator
    {
      State(goalState, checkpoint, turnRuntime, ledger, gate, calls, uncertain, coordinator.View())
    }

    /** A restart: the Goal is rebuilt from the checkpoint and the ledger, then checkpointed again. */
    constructor (stored: Option<Goal>, records: seq<Record>, inputs: RuntimeInputCoordinator, load: Load, now: nat, ok: bool)
      ensures coordinator == inputs
      ensures forall s: State :: s.disk == stored && s.ledger == records ==>
        View() == Restart(s, inputs.View(), load, now, ok).0
    {
      hide Reconcile, ValidGoal;
      var loaded := match load { case Unreadable => None case Readable(corrupt) => Some(Loaded(records, corrupt)) };
      goalState := RestoreGoal(stored, loaded, now);
      checkpoint := if ok then Persisted(RestoreGoal(stored, loaded, now)) else stored;
      turnRuntime, ledger, gate, calls, uncertain := None, records, 1, map[], false;
      coordinator := inputs;
    }

    /** persistSessionCheckpointMessagesLocked, then the assignment to goalState. */
    method Persist(next: Goal, ok: bool) returns (written: bool)
      modifies this
      ensures written == ok
      ensures View() == if ok then Save(old(View()), next) else old(View())
    {
      if !ok { return false; }
      checkpoint := Some(next);
      goalState := Live(next);
      return true;
    }

    /** The same on a Goal that may be unavailable: its stored record is what is written. */
    method PersistHeld(next: Goal, ok: bool) returns (written: bool)
      modifies this
      ensures written == ok
      ensures View() == if ok then Keep(old(View()), next) else old(View())
    {
      if !ok { return false; }
      if goalState.Unavailable? {
        checkpoint := Some(goalState.raw);
        goalState := Unavailable(goalState.raw, next);
      } else {
        checkpoint := Some(next);
        goalState := Live(next);
      }
      return true;
    }

    method RetireItem(id: ItemId, code: string, at: nat, now: nat, w: Writes) returns (settled: bool)
      modifies coordinator
      ensures (coordinator.View(), settled) == Retire(old(coordinator.View()), id, code, at, now, w)
    {
      hide L.RejectContinuation, L.Settle;
      var rejected := coordinator.RejectGoalContinuation(id, code, at, now, w.reject);
      if rejected.Failure? { return false; }
      var r := coordinator.SettleItems({id}, w.settle);
      return r.Success?;
    }

    // -------------------------------------------------------------- control

    method ApplyTransition(control: Control, code: string, built: Result<Goal, GoalError>, w: Writes) returns (r: Reply)
      modifies this, coordinator
      ensures (View(), r) == Transition(old(View()), control, code, built, w)
    {
      hide Retire;
      if (control.boundary != NO_TURN && control.boundary != control.owner) || turnRuntime.Some? { return Refused(InFlight); }
      if built.Failure? { return Refused(built.error); }
      var next := built.value;
      if goalState.Live? && next.goalId == goalState.goal.goalId && next.revision == goalState.goal.revision { return Unchanged; }
      var retired: Option<Continuation> := None;
      if goalState.Live? && OpenCursor(goalState.goal.continuation) {
        retired := Some(Disposed(goalState.goal.continuation.value, CursorRejected, code, next.updatedAt));
        next := next.(continuation := retired);
      }
      var written := Persist(next, w.first);
      if !written { return Refused(WriteFailed); }
      if retired.Some? {
        var _ := RetireItem(ItemOf(retired.value.identity), code, retired.value.at, next.updatedAt, w);
      }
      return Done;
    }

    method Create(control: Control, id: string, objective: string, budget: Option<nat>, now: nat, w: Writes) returns (r: Reply)
      modifies this, coordinator
      ensures (View(), r) == Transition(old(View()), control, SUPERSEDED,
                                        CreateNext(old(goalState), id, objective, budget, control.contained, now), w)
    {
      hide Transition;
      r := ApplyTransition(control, SUPERSEDED, CreateNext(goalState, id, objective, budget, control.contained, now), w);
    }

    method Edit(control: Control, objective: string, now: nat, w: Writes) returns (r: Reply)
      modifies this, coordinator
      ensures (View(), r) == Transition(old(View()), control, "superseded-by-objective-edit", EditNext(old(goalState), objective, now), w)
    {
      hide Transition;
      r := ApplyTransition(control, "superseded-by-objective-edit", EditNext(goalState, objective, now), w);
    }

    method Pause(control: Control, now: nat, w: Writes) returns (r: Reply)
      modifies this, coordinator
      ensures (View(), r) == Transition(old(View()), control, "superseded-by-goal-pause", PauseNext(old(goalState), now), w)
    {
      hide Transition;
      r := ApplyTransition(control, "superseded-by-goal-pause", PauseNext(goalState, now), w);
    }

    method Resume(control: Control, now: nat, w: Writes) returns (r: Reply)
      modifies this, coordinator
      ensures (View(), r) == Transition(old(View()), control, "superseded-by-goal-resume", ResumeNext(old(goalState), control.contained, now), w)
    {
      hide Transition;
      r := ApplyTransition(control, "superseded-by-goal-resume", ResumeNext(goalState, control.contained, now), w);
    }

    method SetBudget(control: Control, budget: nat, now: nat, w: Writes) returns (r: Reply)
      modifies this, coordinator
      ensures (View(), r) == Transition(old(View()), control, "superseded-by-budget-change", BudgetNext(old(goalState), budget, now), w)
    {
      hide Transition;
      r := ApplyTransition(control, "superseded-by-budget-change", BudgetNext(goalState, budget, now), w);
    }

    method ClearForTurn(control: Control, now: nat, w: Writes) returns (r: Reply)
      modifies this, coordinator
      ensures (View(), r) == Clear(old(View()), control, now, w)
    {
      hide Retire;
      if control.boundary != NO_TURN && control.boundary != control.owner { return Refused(InFlight); }
      var held := Held(goalState);
      if held.None? { return Done; }
      var g := held.value;
      if g.pendingUsage.Some? { return Refused(AdmissionPending); }
      if OpenCursor(g.continuation) {
        var rejected := NextRevision(g, now);
        if rejected.Failure? { return Refused(rejected.error); }
        var retired := Disposed(g.continuation.value, CursorRejected, "superseded-by-goal-clear", now);
        var written := PersistHeld(rejected.value.(continuation := Some(retired)), w.first);
        if !written { return Refused(WriteFailed); }
        var settled := RetireItem(ItemOf(retired.identity), retired.reason, now, now, w);
        if !settled { return Refused(ItemWriteFailed); }
      }
      if !w.second { return Refused(WriteFailed); }
      goalState, checkpoint, turnRuntime := Empty, None, None;
      return Done;
    }

    // -------------------------------------------------------------- turns

    method BeginTurn(turnId: TurnId, steering: bool, item: Option<L.Item>, boundary: TurnId, now: nat, w: Writes) returns (r: Reply)
      modifies this, coordinator
      ensures (View(), r) == GoalMachine.BeginTurn(old(View()), turnId, steering, item, boundary, now, w)
    {
      hide Retire, BeginContinuation, TurnNext;
      if turnId == NO_TURN || boundary != turnId { return Refused(InvalidInput); }
      if !goalState.Live? || goalState.goal.status != Active { return Unchanged; }
      if goalState.goal.pendingUsage.Some? { return Refused(AdmissionPending); }
      if turnRuntime.Some? { return Refused(InFlight); }
      if item.Some? {
        r := BeginContinuationTurn(turnId, item.value, now, w);
        return;
      }
      var begun := TurnNext(goalState.goal, turnId, steering, now);
      if begun.Failure? { return Refused(begun.error); }
      var next := begun.value;
      var written := Persist(next, w.first);
      if !written { return Refused(WriteFailed); }
      if steering && next.continuation.Some? && next.continuation.value.disposition == CursorRejected {
        var cursor := next.continuation.value;
        var settled := RetireItem(ItemOf(cursor.identity), cursor.reason, now, now, w);
        if !settled { return Refused(ItemWriteFailed); }
      }
      turnRuntime := Some(TurnRuntime(turnId, Some(now), {}));
      return Done;
    }

    method BeginContinuationTurn(turnId: TurnId, item: L.Item, now: nat, w: Writes) returns (r: Reply)
      requires goalState.Live?
      modifies this, coordinator
      ensures (View(), r) == BeginContinuation(old(View()), old(goalState.goal), turnId, item, now, w)
    {
      hide Retire, ContinuationFits, L.AdmissionItem;
      var g := goalState.goal;
      if !ContinuationFits(g, item, coordinator.scope, turnId) { return Refused(StaleContinuation); }
      assert g.continuation.Some? by { FitsCursor(g, item, coordinator.scope, turnId); }
      var cursor := g.continuation.value;
      if cursor.disposition == CursorAdmitting {
        turnRuntime := Some(TurnRuntime(turnId, Some(now), {}));
        return Done;
      }
      var claimed := coordinator.ContinuationForAdmission(item.id, coordinator.scope);
      if claimed.Failure? {
        if claimed.error != L.ExplicitInputPending { return Refused(ClaimRefused); }
        r := RejectContinuationAdmission(cursor, "superseded-by-explicit-user-input", now, w);
        return;
      }
      if claimed.value.(state := L.Pending) != item.(state := L.Pending) { return Refused(ClaimRefused); }
      if coordinator.revision <= cursor.identity.runtimeRevision { return Refused(ClaimRefused); }
      var next := NextRevision(g, now);
      if next.Failure? { return Refused(next.error); }
      var admitted := Disposed(cursor, CursorAdmitting, "continuation-turn-admitted", now);
      var written := Persist(next.value.(lastTurnId := turnId, continuation := Some(admitted)), w.first);
      if !written { return Refused(WriteFailed); }
      turnRuntime := Some(TurnRuntime(turnId, Some(now), {}));
      return Done;
    }

    method RejectContinuationAdmission(cursor: Continuation, reason: string, now: nat, w: Writes) returns (r: Reply)
      requires goalState.Live?
      modifies this, coordinator
      ensures NextRevision(old(goalState.goal), now).Failure? ==>
        View() == old(View()) && r == Refused(NextRevision(old(goalState.goal), now).error)
      ensures NextRevision(old(goalState.goal), now).Success? && !w.first ==> View() == old(View()) && r == Refused(WriteFailed)
      ensures NextRevision(old(goalState.goal), now).Success? && w.first ==>
        && r == Refused(PermanentlyRejected)
        && View() == Save(old(View()), NextRevision(old(goalState.goal), now).value.(continuation := Some(Disposed(cursor, CursorRejected, reason, now))))
                     .(coord := Retire(old(coordinator.View()), ItemOf(cursor.identity), reason, now, now, w).0)
    {
      hide Retire;
      var next := NextRevision(goalState.goal, now);
      if next.Failure? { return Refused(next.error); }
      var written := Persist(next.value.(continuation := Some(Disposed(cursor, CursorRejected, reason, now))), w.first);
      if !written { return Refused(WriteFailed); }
      var _ := RetireItem(ItemOf(cursor.identity), reason, now, now, w);
      return Refused(PermanentlyRejected);
    }

    method RequestCompletion(goalId: string, objectiveRevision: nat, turnId: TurnId, now: nat, ok: bool) returns (r: Reply)
      modifies this
      ensures (View(), r) == GoalMachine.RequestCompletion(old(View()), goalId, objectiveRevision, turnId, now, ok)
    {
      var refusal := CheckEvidence(goalId, objectiveRevision, turnId);
      if refusal.Some? { return Refused(refusal.value); }
      var next := NextRevision(goalState.goal, now);
      if next.Failure? { return Refused(next.error); }
      var written := Persist(next.value.(pendingComplete := Some(CompletionRequest(turnId, objectiveRevision))), ok);
      return if written then Done else Refused(WriteFailed);
    }

    /** The guards of commitTurnEvidence. */
    method CheckEvidence(goalId: string, objectiveRevision: nat, turnId: TurnId) returns (refusal: Option<GoalError>)
      ensures match Evidence(View(), goalId, objectiveRevision, turnId)
        case Failure(e) => refusal == Some(e)
        case Success(g) => refusal == None && goalState == Live(g)
    {
      if turnId == NO_TURN { return Some(InvalidInput); }
      var current := Mutable(goalState);
      if current.Failure? { return Some(current.error); }
      var g := current.value;
      if g.status != Active || g.goalId != goalId || g.objectiveRevision != objectiveRevision || g.lastTurnId != turnId ||
         turnRuntime.None? || turnRuntime.value.turnId != turnId {
        return Some(StaleEvidence);
      }
      return None;
    }

    static method Reported(turns: seq<TurnId>, turnId: TurnId) returns (found: bool)
      ensures found == (turnId in turns)
    {
      for i := 0 to |turns|
        invariant turnId !in turns[..i]
      {
        if turns[i] == turnId { return true; }
      }
      return false;
    }

    /** The turn joins those that reported the key, newest three kept; the third blocks. */
    static method NoteBlocker(g: Goal, key: string, turnId: TurnId) returns (next: Goal, third: bool)
      ensures next == g.(blockerKey := key, blockerTurns := BlockerTurnsWith(g, key, turnId))
      ensures var known := if g.blockerKey == key then g.blockerTurns else []; third <==> turnId !in known && |known| + 1 >= BLOCKER_TURNS
    {
      next, third := g, false;
      if next.blockerKey != key { next := next.(blockerKey := key, blockerTurns := []); }
      var duplicate := Reported(next.blockerTurns, turnId);
      if !duplicate {
        next := next.(blockerTurns := next.blockerTurns + [turnId]);
        if |next.blockerTurns| >= BLOCKER_TURNS {
          next := next.(blockerTurns := next.blockerTurns[|next.blockerTurns| - BLOCKER_TURNS..]);
          third := true;
        }
      }
    }

    static lemma SameBlame(g: Goal, n: Goal, key: string, turnId: TurnId)
      requires n.blockerKey == g.blockerKey && n.blockerTurns == g.blockerTurns
      ensures BlockerTurnsWith(n, key, turnId) == BlockerTurnsWith(g, key, turnId)
    {}

    method ReportBlocker(goalId: string, objectiveRevision: nat, turnId: TurnId, key: string, reason: string, now: nat, ok: bool) returns (r: Reply)
      modifies this
      ensures (View(), r) == GoalMachine.ReportBlocker(old(View()), goalId, objectiveRevision, turnId, key, reason, now, ok)
    {
      hide StopInterval, BlockerTurnsWith;
      if key == "" || reason == "" { return Refused(InvalidInput); }
      var refusal := CheckEvidence(goalId, objectiveRevision, turnId);
      if refusal.Some? { return Refused(refusal.value); }
      var g := goalState.goal;
      var revised := NextRevision(g, now);
      if revised.Failure? { return Refused(revised.error); }
      SameBlame(g, revised.value, key, turnId);
      var next, third := NoteBlocker(revised.value, key, turnId);
      if third {
        next := next.(status := Blocked, reasonCode := "model-blocker");
        next := StopActiveInterval(next, now);
      }
      if next.blockerKey == g.blockerKey && |next.blockerTurns| == |g.blockerTurns| { return Unchanged; }
      var written := Persist(next, ok);
      return if written then Done else Refused(WriteFailed);
    }

    /** stopActiveIntervalLocked: the interval of the running turn goes to the candidate Goal. */
    method StopActiveInterval(g: Goal, now: nat) returns (next: Goal)
      requires turnRuntime.Some?
      modifies this`turnRuntime
      ensures turnRuntime.Some? && (next, turnRuntime.value) == StopInterval(g, old(turnRuntime.value), now)
    {
      next := g;
      var runtime := turnRuntime.value;
      if runtime.activeSince.None? { return; }
      if now > runtime.activeSince.value {
        var elapsed := ElapsedMillis(runtime.activeSince.value, now);
        if elapsed > 0 {
          next := g.(rootActiveMillis := if g.rootActiveMillis > MAX_I64 - elapsed then MAX_I64 else g.rootActiveMillis + elapsed);
        }
      }
      turnRuntime := Some(runtime.(activeSince := None));
    }

    method PauseTurnFor(reason: string, now: nat, ok: bool) returns (r: Reply)
      modifies this
      ensures (View(), r) == OpenWait(old(View()), reason, now, ok)
    {
      hide StopInterval;
      if reason == "" { return Refused(InvalidInput); }
      if turnRuntime.None? || !goalState.Live? || goalState.goal.status != Active { return Unchanged; }
      if reason in turnRuntime.value.waiting { return Unchanged; }
      var revised := NextRevision(goalState.goal, now);
      if revised.Failure? { return Refused(revised.error); }
      var next := revised.value;
      var before := turnRuntime.value;
      if before.waiting == {} { next := StopActiveInterval(next, now); }
      turnRuntime := Some(turnRuntime.value.(waiting := before.waiting + {reason}));
      var written := Persist(next, ok);
      if !written {
        turnRuntime := Some(turnRuntime.value.(waiting := before.waiting, activeSince := before.activeSince));
        return Refused(WriteFailed);
      }
      return Done;
    }

    method ResumeTurnFor(reason: string, now: nat, ok: bool) returns (r: Reply)
      modifies this
      ensures (View(), r) == CloseWait(old(View()), reason, now, ok)
    {
      if reason == "" { return Refused(InvalidInput); }
      if turnRuntime.None? || !goalState.Live? || reason !in turnRuntime.value.waiting { return Unchanged; }
      var next := NextRevision(goalState.goal, now);
      if next.Failure? { return Refused(next.error); }
      var before := turnRuntime.value;
      turnRuntime := Some(before.(waiting := before.waiting - {reason}));
      if turnRuntime.value.waiting == {} && next.value.status == Active {
        turnRuntime := Some(turnRuntime.value.(activeSince := Some(now)));
      }
      var written := Persist(next.value, ok);
      if !written {
        turnRuntime := Some(before);
        return Refused(WriteFailed);
      }
      return Done;
    }

    method AbandonTurn(turnId: TurnId) returns (r: Reply)
      modifies this
      ensures (View(), r) == GoalMachine.AbandonTurn(old(View()), turnId)
    {
      if turnRuntime.None? || turnRuntime.value.turnId != turnId { return Unchanged; }
      turnRuntime := None;
      return Done;
    }

    /** hasPendingGoalSteering over the coordinator's snapshot. */
    method HasPendingSteering() returns (found: bool)
      ensures found == SteeringPending(coordinator.View())
    {
      var items := coordinator.TakeSnapshot(coordinator.scope);
      for i := 0 to |items|
        invariant forall j :: 0 <= j < i ==> items[j].kind != L.UserPrompt && items[j].kind != L.Steering
      {
        if items[i].kind == L.UserPrompt || items[i].kind == L.Steering { return true; }
      }
      return false;
    }

    /** The Goal and the turn at the terminal boundary, before a continuation is minted. */
    method CloseTurn(e: TerminalEvent, enabled: bool, now: nat) returns (next: Goal)
      requires goalState.Live? && turnRuntime.Some? && goalState.goal.revision < MAX_U64
      modifies this`turnRuntime
      ensures turnRuntime.Some? && next == Closed(goalState.goal, old(turnRuntime.value), e, coordinator.View(), enabled, now)
    {
      hide SteeringPending, StopInterval;
      var before, g := turnRuntime.value, goalState.goal;
      next := StopActiveInterval(g.(revision := g.revision + 1, updatedAt := now), now);
      next := next.(lastTerminalSequence := e.sequence + 2);
      if e.reason != Completed && next.pendingComplete.Some? && next.pendingComplete.value.turnId == e.turnId {
        next := next.(pendingComplete := None);
      }
      var steering := HasPendingSteering();
      if enabled && e.reason == Completed && next.pendingComplete == Some(CompletionRequest(e.turnId, e.objectiveRevision)) &&
         next.pendingUsage.None? && !steering && before.waiting == {} {
        next := Forget(Restatus(next, Complete, ""));
      }
    }

    method CommitTerminal(e: TerminalEvent, enabled: bool, now: nat, w: Writes) returns (r: Reply)
      modifies this, coordinator
      ensures (View(), r) == Terminal(old(View()), e, enabled, now, w)
    {
      hide EnqueueCursor, Closed, Eligible, Mint;
      if turnRuntime.None? || !goalState.Live? || turnRuntime.value.turnId != e.turnId || goalState.goal.goalId != e.goalId ||
         goalState.goal.objectiveRevision != e.objectiveRevision { return Refused(StaleEvidence); }
      if e.sequence > MAX_U64 - 2 { return Refused(SequenceExhausted); }
      if goalState.goal.revision >= MAX_U64 { return Refused(RevisionExhausted); }
      var before := turnRuntime.value;
      var next := CloseTurn(e, enabled, now);
      if Eligible(next, before, e.reason) {
        var cursor := MintCursor(next, e.reason, e.sequence + 2, now);
        if cursor.Failure? {
          turnRuntime := Some(before);
          return Refused(cursor.error);
        }
        next := next.(continuationOrdinal := cursor.value.identity.ordinal, continuation := Some(cursor.value));
      }
      var written := Persist(next, w.first);
      if !written {
        turnRuntime := Some(before);
        return Refused(WriteFailed);
      }
      turnRuntime := None;
      if next.continuation.Some? && next.continuation.value.disposition == CursorPending {
        var _ := EnqueueDormant(next.continuation.value, now, w.item);
      }
      return Done;
    }

    method MintCursor(g: Goal, reason: TerminalReason, sequence: nat, now: nat) returns (r: Result<Continuation, GoalError>)
      ensures r == Mint(g, coordinator.View(), reason, sequence, now)
    {
      if g.continuationOrdinal == MAX_U64 { return Failure(OrdinalExhausted); }
      var identity := CursorIdentity(g.goalId, g.objectiveRevision, g.revision, g.status, coordinator.scope, g.lastTurnId, sequence, reason,
                                     now, g.tokenBudget, g.tokensUsed, g.usageLedgerRevision, g.continuationOrdinal + 1, coordinator.revision);
      var cursor := Continuation(identity, CursorPending, "", 0);
      return if ValidContinuation(cursor) then Success(cursor) else Failure(InvalidIdentity);
    }

    method EnqueueDormant(cursor: Continuation, now: nat, ok: bool) returns (r: Result<seq<L.Item>, L.InputError>)
      modifies coordinator
      ensures (coordinator.View(), r) == EnqueueCursor(old(coordinator.View()), cursor, now, ok)
    {
      hide L.Enqueue;
      r := coordinator.EnqueueBatch([CursorItem(cursor)], L.Mode(Some((L.GoalContinuation, 1)), false), now, ok);
    }

    method MarkContinuationDelivered(id: ItemId, turnId: TurnId, now: nat, ok: bool) returns (r: Reply)
      modifies this
      ensures (View(), r) == MarkDelivered(old(View()), id, turnId, now, ok)
    {
      if !goalState.Live? || goalState.goal.continuation.None? { return Refused(StaleContinuation); }
      var cursor := goalState.goal.continuation.value;
      if ItemOf(cursor.identity) != id || ContinuationTurn(cursor.identity) != turnId || cursor.disposition != CursorAdmitting {
        return Refused(StaleContinuation);
      }
      var next := NextRevision(goalState.goal, now);
      if next.Failure? { return Refused(next.error); }
      var written := Persist(next.value.(continuation := Some(Disposed(cursor, CursorDelivered, "transcript-receipt-committed", now))), ok);
      return if written then Done else Refused(WriteFailed);
    }

    method PauseForCancellation(now: nat, w: Writes) returns (r: Reply)
      modifies this, coordinator
      ensures (View(), r) == CancelPause(old(View()), now, w)
    {
      hide Retire, AddMillis, ElapsedMillis;
      if !goalState.Live? || goalState.goal.status != Active { return Unchanged; }
      var revised := NextRevision(goalState.goal, now);
      if revised.Failure? { return Refused(revised.error); }
      var next := Forget(Restatus(revised.value, Paused, "user-cancelled"));
      if turnRuntime.Some? { next := StopActiveInterval(next, now); }
      var retired: Option<Continuation> := None;
      if OpenCursor(next.continuation) {
        retired := Some(Disposed(next.continuation.value, CursorRejected, "superseded-by-user-cancel", now));
        next := next.(continuation := retired);
      }
      var written := Persist(next, w.first);
      if !written { return Refused(WriteFailed); }
      if retired.Some? {
        var _ := RetireItem(ItemOf(retired.value.identity), retired.value.reason, now, now, w);
      }
      return Done;
    }

    // -------------------------------------------------------------- provider usage

    method LoadUsage(load: Load) returns (r: Option<Loaded>)
      ensures r == LoadLedger(View(), load)
    {
      match load
      case Unreadable => return None;
      case Readable(corrupt) => return Some(Loaded(ledger, corrupt));
    }

    /** reconcileGoalUsageState over the loaded ledger. */
    method ReconcileUsage(g: Goal, loaded: Option<Loaded>, now: nat) returns (r: Reconciled)
      ensures r == Reconcile(g, loaded, now)
    {
      hide Inspect, Apply;
      var inspected := InspectLedger(g, loaded);
      if inspected.Failure? { return Limit(g, now, inspected.error); }
      if g.pendingUsage.None? { return Reconciled(g, false, None); }
      var revision := g.pendingUsage.value.ledgerRevision;
      if revision !in inspected.value {
        var next := NextRevision(g, now);
        if next.Failure? { return Reconciled(g, false, Some(next.error)); }
        return Reconciled(Forget(Restatus(next.value, UsageLimited, COVERAGE_INCOMPLETE)), true, Some(CoverageIncomplete));
      }
      var next := Apply(g, inspected.value[revision], now);
      if next.Failure? { return Limit(g, now, next.error); }
      return Reconciled(next.value, true, None);
    }

    method AdmitProviderUsage(reporter: Reporter, roundId: string, attempt: Attempt, callId: string, load: Load, now: nat, w: Writes) returns (r: Reply)
      modifies this
      ensures (View(), r) == Admit(old(View()), reporter, roundId, attempt, callId, load, now, w)
    {
      hide CheckAdmission, Reconcile, ValidAdmission;
      if reporter.revoked { return Refused(CapabilityUnavailable); }
      if roundId == "" || callId == "" { return Refused(InvalidIdentity); }
      if gate == 0 { return Refused(GateBusy); }
      if uncertain { return Refused(CoverageIncomplete); }
      var refusal := CheckAdmission(goalState, reporter);
      if refusal.Some? { return Refused(refusal.value); }
      if goalState.goal.pendingUsage.Some? {
        var loaded := LoadUsage(load);
        var rec := ReconcileUsage(goalState.goal, loaded, now);
        if rec.changed {
          var written := Persist(rec.goal, w.first);
          if !written { return Refused(WriteFailed); }
        }
        if rec.error.Some? { return Refused(rec.error.value); }
        refusal := CheckAdmission(goalState, reporter);
        if refusal.Some? { return Refused(refusal.value); }
        if goalState.goal.pendingUsage.Some? { return Refused(AdmissionPending); }
      }
      r := AdmitCall(reporter, roundId, attempt, callId, now, w.second);
    }

    method AdmitCall(reporter: Reporter, roundId: string, attempt: Attempt, callId: string, now: nat, ok: bool) returns (r: Reply)
      requires goalState.Live?
      modifies this
      ensures (View(), r) == AdmitNext(old(View()), old(goalState.goal), reporter, roundId, attempt, callId, now, ok)
    {
      hide ValidAdmission;
      var g := goalState.goal;
      if g.usageLedgerRevision == MAX_U64 { return Refused(LedgerExhausted); }
      var next := NextRevision(g, now);
      if next.Failure? { return Refused(next.error); }
      var call := CallIdentity(reporter.goalId, reporter.objectiveRevision, reporter.rootSessionId, reporter.rootThreadId,
                               reporter.subject, reporter.turnId, roundId, attempt, callId);
      var admission := Admission(g.usageLedgerRevision + 1, call, now);
      if !ValidAdmission(admission) { return Refused(InvalidIdentity); }
      var written := Persist(next.value.(pendingUsage := Some(admission)), ok);
      if !written { return Refused(WriteFailed); }
      gate, calls := 0, calls[callId := Call(admission, Admitted)];
      return Done;
    }

    method RecordUsage(callId: string, usage: Option<Usage>, append: Append) returns (r: Reply)
      modifies this
      ensures (View(), r) == GoalMachine.RecordUsage(old(View()), callId, usage, append)
    {
      hide Normalize, ValidRecord;
      if callId !in calls || calls[callId].phase != Admitted { return Unchanged; }
      var call := calls[callId];
      var tokens := Normalize(usage);
      if tokens.Failure? {
        calls := calls[callId := call.(phase := Unreported)];
        return Refused(CoverageIncomplete);
      }
      var record := Record(call.admission.ledgerRevision, call.admission.call, tokens.value);
      if !ValidRecord(record) {
        calls := calls[callId := call.(phase := Unreported)];
        return Refused(CoverageIncomplete);
      }
      if append != Lost { ledger := ledger + [record]; }
      if append != Appended {
        calls := calls[callId := call.(phase := Unreported)];
        return Refused(WriteFailed);
      }
      calls := calls[callId := call.(phase := Recorded(record))];
      return Done;
    }

    /** settle's deferred send. */
    method ReturnGateToken(callId: string)
      modifies this
      ensures View() == ReturnToken(old(View()), callId)
    {
      calls, gate := calls - {callId}, gate + 1;
    }

    method CountUsage(callId: string, now: nat, ok: bool) returns (r: Reply)
      modifies this
      ensures (View(), r) == GoalMachine.CountUsage(old(View()), callId, now, ok)
    {
      hide Apply;
      if callId !in calls || !calls[callId].phase.Recorded? { return Unchanged; }
      var call := calls[callId];
      var record := call.phase.record;
      ReturnGateToken(callId);
      if !goalState.Live? { return Refused(NotFound); }
      var g := goalState.goal;
      if g.pendingUsage.None? {
        return if g.usageLedgerRevision >= record.ledgerRevision then Done else Refused(AdmissionPending);
      }
      if g.pendingUsage != Some(call.admission) { return Refused(StaleCall); }
      var next := Apply(g, record, now);
      if next.Failure? { return Refused(next.error); }
      var written := Persist(next.value, ok);
      return if written then Done else Refused(WriteFailed);
    }

    method ReleaseBeforeDispatch(callId: string, now: nat, ok: bool) returns (r: Reply)
      modifies this
      ensures (View(), r) == ReleaseCall(old(View()), callId, now, ok)
    {
      if callId !in calls || calls[callId].phase != Admitted { return Unchanged; }
      var call := calls[callId];
      ReturnGateToken(callId);
      if !goalState.Live? || goalState.goal.pendingUsage != Some(call.admission) { return Refused(StaleCall); }
      var next := NextRevision(goalState.goal, now);
      if next.Failure? { return Refused(next.error); }
      var written := Persist(next.value.(pendingUsage := None), ok);
      return if written then Done else Refused(WriteFailed);
    }

    method MarkUsageAmbiguous(callId: string, now: nat, ok: bool) returns (r: Reply)
      modifies this
      ensures (View(), r) == MarkAmbiguous(old(View()), callId, now, ok)
    {
      if callId !in calls || calls[callId].phase.Recorded? { return Unchanged; }
      var call := calls[callId];
      ReturnGateToken(callId);
      uncertain := true;
      if !goalState.Live? || goalState.goal.pendingUsage != Some(call.admission) { return Refused(StaleCall); }
      var next := NextRevision(goalState.goal, now);
      if next.Failure? { return Refused(next.error); }
      var written := Persist(Forget(Restatus(next.value, UsageLimited, COVERAGE_INCOMPLETE)), ok);
      return if written then Done else Refused(WriteFailed);
    }

    // -------------------------------------------------------------- recovery

    method StoreCheckpoint(ok: bool) returns (r: Reply)
      modifies this
      ensures (View(), r) == Checkpoint(old(View()), ok)
    {
      if !ok { return Refused(WriteFailed); }
      checkpoint := Persisted(goalState);
      return Done;
    }

    method PauseRestoredContinuation(disposition: Disposition, reason: string, now: nat, w: Writes) returns (r: Reply)
      requires Held(goalState).Some? && Held(goalState).value.continuation.Some?
      modifies this, coordinator
      ensures (View(), r) == PauseRestored(old(View()), disposition, reason, now, w)
    {
      hide Retire, L.Settle;
      var cursor := Held(goalState).value.continuation.value;
      var next := NextRevision(Held(goalState).value, now);
      if next.Failure? { return Refused(next.error); }
      var written := PersistHeld(Forget(Restatus(next.value, Paused, COLD).(continuation := Some(Disposed(cursor, disposition, reason, now)))), w.first);
      if !written { return Refused(WriteFailed); }
      if disposition == CursorRejected {
        var settled := RetireItem(ItemOf(cursor.identity), reason, now, now, w);
        return if settled then Done else Refused(ItemWriteFailed);
      }
      var settled := coordinator.SettleItems({ItemOf(cursor.identity)}, w.settle);
      return if settled.Success? then Done else Refused(ItemWriteFailed);
    }

    method ReconcileRestoredContinuation(found: Option<set<ItemId>>, disabled: bool, now: nat, w: Writes) returns (r: Reply)
      modifies this, coordinator
      ensures (View(), r) == ReconcileContinuation(old(View()), found, disabled, now, w)
    {
      hide Requeue, RetireRestored, L.Settle, PauseRestored, L.ResolveDelivered;
      if Held(goalState).None? || Held(goalState).value.continuation.None? { return Done; }
      if found.None? { return Refused(ItemWriteFailed); }
      var cursor := Held(goalState).value.continuation.value;
      var id := ItemOf(cursor.identity);
      var covered := coordinator.Resolve({id}, found.value);
      if id in covered {
        if cursor.disposition != CursorDelivered {
          r := PauseRestoredContinuation(CursorDelivered, "transcript-receipt-recovered", now, w);
          return;
        }
        var settled := coordinator.SettleItems({id}, w.settle);
        return if settled.Success? then Done else Refused(ItemWriteFailed);
      }
      if disabled {
        r := PauseRestoredContinuation(if cursor.disposition == CursorDelivered then CursorDelivered else CursorRejected,
                                       "goal-capability-disabled", now, w);
        return;
      }
      if !OpenCursor(Some(cursor)) {
        r := RetireRestoredItem(cursor, now, w);
        return;
      }
      r := RequeueRestored(now, w);
    }

    method RetireRestoredItem(cursor: Continuation, now: nat, w: Writes) returns (r: Reply)
      modifies coordinator
      ensures (View(), r) == RetireRestored(old(View()), cursor, now, w)
    {
      hide Retire;
      var code := if cursor.reason == "" then "restored-terminal-disposition" else cursor.reason;
      var settled := RetireItem(ItemOf(cursor.identity), code, if cursor.at == 0 then now else cursor.at, now, w);
      return if settled then Done else Refused(ItemWriteFailed);
    }

    /** An open cursor gets its item back, or is paused when it cannot have one. */
    method RequeueRestored(now: nat, w: Writes) returns (r: Reply)
      requires Held(goalState).Some? && Held(goalState).value.continuation.Some?
      modifies this, coordinator
      ensures (View(), r) == Requeue(old(View()), now, w)
    {
      hide EnqueueCursor, PauseRestored;
      ghost var before := coordinator.View();
      var cursor := Held(goalState).value.continuation.value;
      var queued := EnqueueDormant(cursor, now, w.item);
      if queued.Success? { return Done; }
      FailedEnqueue(before, cursor, now, w.item);
      r := PauseRestoredContinuation(CursorRejected, "recovery-item-conflict", now, w);
    }
  }

  lemma FailedEnqueue(c: L.Coord, cursor: Continuation, now: nat, ok: bool)
    ensures EnqueueCursor(c, cursor, now, ok).1.Failure? ==> EnqueueCursor(c, cursor, now, ok).0 == c
  {
    hide L.Drafted;
  }

  lemma FitsCursor(g: Goal, item: L.Item, own: Scope, turnId: TurnId)
    requires ContinuationFits(g, item, own, turnId)
    ensures g.continuation.Some?
  {}
}
