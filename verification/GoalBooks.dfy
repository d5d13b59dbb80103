/** Token conservation: the usage ledger and the Goal's aggregate agree in every reachable state. */
module GoalBooks {
  import opened Basics
  import opened RuntimeTypes
  import opened UsageNormalize
  import opened GoalTypes
  import opened GoalUsage
  import opened GoalMachine
  import opened GoalRuns
  import opened GoalSteps
  import L = InputLedger

  function OwnedBy(goalId: string): (r: Record -> bool) {
    (record: Record) => record.call.goalId == goalId
  }

  /** The records of one Goal, in ledger order. */
  function Of(ledger: seq<Record>, goalId: string): (r: seq<Record>) {
    Filter(ledger, OwnedBy(goalId))
  }

  function Billed(records: seq<Record>): (r: nat) {
    if records == [] then 0 else Billed(records[..|records| - 1]) + records[|records| - 1].tokens.billable
  }

  /** The i-th record of a Goal carries revision i + 1. */
  predicate Numbered(records: seq<Record>, objectiveRevision: nat) {
    forall i :: 0 <= i < |records| ==>
      records[i].ledgerRevision == i + 1 && ValidRecord(records[i]) && records[i].call.objectiveRevision <= objectiveRevision
  }

  /** The counters fit 64 bits, and the pending admission is for the next revision of this Goal. */
  predicate Bound(g: Goal) {
    && g.usageLedgerRevision <= MAX_U64 && g.tokensUsed <= MAX_U64
    && (g.pendingUsage.Some? ==> PendingNext(g, g.pendingUsage.value))
  }

  predicate PendingNext(g: Goal, a: Admission) {
    && g.usageLedgerRevision < MAX_U64
    && a.ledgerRevision == g.usageLedgerRevision + 1
    && a.call.goalId == g.goalId
    && a.call.objectiveRevision == g.objectiveRevision
    && ValidAdmission(a)
    && g.status != Complete
  }

  /** The ledger holds revisions 1 to `usageLedgerRevision`, at most the pending one beyond them, and the aggregate is their sum. */
  predicate Balanced(g: Goal, records: seq<Record>) {
    && Numbered(records, g.objectiveRevision)
    && g.usageLedgerRevision <= |records| <= g.usageLedgerRevision + 1
    && (|records| > g.usageLedgerRevision ==>
          g.pendingUsage.Some? && Matches(records[g.usageLedgerRevision], g.pendingUsage.value))
    && g.tokensUsed == Billed(records[..g.usageLedgerRevision])
  }

  /** An active Goal, and one with a call outstanding, has budget left. */
  predicate Funded(g: Goal) {
    g.status == Active || g.pendingUsage.Some? ==> BudgetRemains(g.tokenBudget, g.tokensUsed)
  }

  predicate Sound(g: Goal, ledger: seq<Record>) {
    Bound(g) && Balanced(g, Of(ledger, g.goalId)) && Funded(g)
  }

  /** A call in flight is the one the durable Goal waits for, and the ledger shows how far it got. */
  predicate InFlightCall(s: State, callId: string, call: Call) {
    && s.mem.Live? && s.disk == Some(s.mem.goal)
    && s.mem.goal.pendingUsage == Some(call.admission)
    && callId == call.admission.call.callId
    && (match call.phase
        case Admitted => |Of(s.ledger, s.mem.goal.goalId)| == s.mem.goal.usageLedgerRevision
        case Recorded(record) =>
          |Of(s.ledger, s.mem.goal.goalId)| == s.mem.goal.usageLedgerRevision + 1 &&
          Of(s.ledger, s.mem.goal.goalId)[s.mem.goal.usageLedgerRevision] == record
        case Unreported => true)
  }

  predicate CallsOk(s: State) {
    && s.gate + |s.calls| == 1
    && forall id :: id in s.calls ==> InFlightCall(s, id, s.calls[id])
  }

  predicate Stored(s: State) {
    && (s.mem.Unavailable? ==> s.disk == Some(s.mem.raw) && s.mem.shown.pendingUsage == s.mem.raw.pendingUsage)
    && (s.mem.Empty? ==> s.disk.None?)
  }

  predicate BothSound(s: State) {
    && (s.mem.Live? ==> Sound(s.mem.goal, s.ledger))
    && (s.disk.Some? ==> Sound(s.disk.value, s.ledger))
  }

  predicate StateOk(s: State) {
    BothSound(s) && CallsOk(s) && Stored(s)
  }

  /** Every Goal identity in sight has been recorded as used. */
  predicate Known(s: State, ids: set<string>) {
    && (forall i :: 0 <= i < |s.ledger| ==> s.ledger[i].call.goalId in ids)
    && (s.mem.Live? ==> s.mem.goal.goalId in ids)
    && (s.disk.Some? ==> s.disk.value.goalId in ids)
  }

  // ---------------------------------------------------------------- steps that leave the books alone

  lemma MovesSound(op: Op, g: Goal, n: Goal, ledger: seq<Record>)
    requires Sound(g, ledger) && Moves(g, n) && Permits(op, g, n)
    ensures Sound(n, ledger)
  {
    hide Billed, Of, Breaks, ValidAdmission, ValidRecord;
  }

  /** Saving a Goal with the same books keeps every call in flight tied to it. */
  lemma SaveKeeps(s: State, n: State)
    requires StateOk(s) && SameCalls(s, n) && s.mem.Live? && n.mem.Live? && n.disk == Some(n.mem.goal)
    requires SameBooks(s.mem.goal, n.mem.goal) && Sound(n.mem.goal, n.ledger)
    ensures StateOk(n)
  {
    hide Sound, Of;
    forall id | id in n.calls ensures InFlightCall(n, id, n.calls[id]) { assert InFlightCall(s, id, s.calls[id]); }
  }

  lemma PlainKeeps(s: State, op: Op)
    requires StateOk(s) && Plain(op)
    ensures StateOk(Step(s, op).0)
  {
    hide Step, Sound, Permits, Of, BudgetRemains;
    PlainQuiet(s, op);
    var n := Step(s, op).0;
    if s.mem.Unavailable? { NoCalls(s); }
    else if n.mem == s.mem && n.disk == s.disk {
      forall id | id in n.calls ensures InFlightCall(n, id, n.calls[id]) { assert InFlightCall(s, id, s.calls[id]); }
    } else {
      MovesSound(op, s.mem.goal, n.mem.goal, s.ledger);
      SaveKeeps(s, n);
    }
  }

  lemma NoCalls(s: State)
    requires CallsOk(s) && (s.mem.Live? ==> s.mem.goal.pendingUsage.None?)
    ensures s.calls == map[] && s.gate == 1
  {
    forall id ensures id !in s.calls {
      assert id in s.calls ==> InFlightCall(s, id, s.calls[id]);
    }
    assert s.calls.Keys == {};
  }

  lemma FreshSound(g: Goal, ledger: seq<Record>)
    requires Of(ledger, g.goalId) == [] && g.usageLedgerRevision == 0 && g.tokensUsed == 0 && g.pendingUsage.None? && g.tokenBudget != Some(0)
    ensures Sound(g, ledger)
  {}

  lemma CreateKeeps(s: State, op: Op)
    requires StateOk(s) && op.CreateOp? && Of(s.ledger, op.id) == []
    ensures StateOk(Transition(s, op.control, SUPERSEDED, CreateNext(s.mem, op.id, op.objective, op.budget, op.control.contained, op.now), op.w).0)
  {
    hide Sound, Of, Retire, InFlightCall;
    var n := Transition(s, op.control, SUPERSEDED, CreateNext(s.mem, op.id, op.objective, op.budget, op.control.contained, op.now), op.w).0;
    if n.mem != s.mem {
      IdleWhenComplete(s);
      FreshSound(n.mem.goal, n.ledger);
    }
  }

  lemma IdleWhenComplete(s: State)
    requires StateOk(s) && (s.mem.Live? ==> s.mem.goal.status == Complete)
    ensures s.calls == map[] && s.gate == 1
  {
    hide Of, Balanced, Funded, InFlightCall;
    NoCalls(s);
  }

  lemma ClearKeeps(s: State, op: Op)
    requires StateOk(s) && op.ClearOp?
    ensures StateOk(Clear(s, op.control, op.now, op.w).0)
  {
    hide Sound, Of, Retire, InFlightCall, BudgetRemains;
    var n := Clear(s, op.control, op.now, op.w).0;
    if n != s {
      NoCalls(s);
      if n.mem.Live? { MovesSound(op, s.mem.goal, n.mem.goal, s.ledger); }
    }
  }

  // ---------------------------------------------------------------- counting a record

  lemma BilledStep(records: seq<Record>, n: nat)
    requires n < |records|
    ensures Billed(records[..n + 1]) == Billed(records[..n]) + records[n].tokens.billable
  {
    assert records[..n + 1][..n] == records[..n];
  }

  lemma CountSound(g: Goal, ledger: seq<Record>, now: nat)
    requires Sound(g, ledger) && |Of(ledger, g.goalId)| == g.usageLedgerRevision + 1
    ensures var r := Apply(g, Of(ledger, g.goalId)[g.usageLedgerRevision], now); r.Success? ==> Sound(r.value, ledger)
  {
    hide Of, Billed, ValidRecord, ValidAdmission;
    BilledStep(Of(ledger, g.goalId), g.usageLedgerRevision);
  }

  /** Every entry is one of the Goal's own records, under its own revision. */
  predicate Drawn(goalId: string, records: seq<Record>, acc: map<nat, Record>) {
    forall k :: k in acc ==> acc[k] in records && acc[k].call.goalId == goalId && acc[k].ledgerRevision == k
  }

  lemma {:induction false} CollectSound(g: Goal, records: seq<Record>, i: nat, acc: map<nat, Record>)
    requires i <= |records| && Drawn(g.goalId, records, acc)
    ensures var r := Collect(g, records, i, acc); r.Success? ==> Drawn(g.goalId, records, r.value)
    decreases |records| - i
  {
    hide ValidRecord;
    if i < |records| {
      var record := records[i];
      assert record in records;
      CollectSound(g, records, i + 1, acc);
      if record.call.goalId == g.goalId { CollectSound(g, records, i + 1, acc[record.ledgerRevision := record]); }
    }
  }

  lemma InspectSound(g: Goal, loaded: Loaded)
    ensures var r := Inspect(g, Some(loaded)); r.Success? ==> Drawn(g.goalId, loaded.records, r.value)
  {
    hide Collect;
    CollectSound(g, loaded.records, 0, map[]);
  }

  /** A record found for the pending revision is the one record beyond the counted ones. */
  lemma FoundIsNext(g: Goal, loaded: Loaded)
    requires Sound(g, loaded.records) && Inspect(g, Some(loaded)).Success?
    requires g.pendingUsage.Some? && g.pendingUsage.value.ledgerRevision in Inspect(g, Some(loaded)).value
    ensures |Of(loaded.records, g.goalId)| == g.usageLedgerRevision + 1
    ensures Inspect(g, Some(loaded)).value[g.pendingUsage.value.ledgerRevision] == Of(loaded.records, g.goalId)[g.usageLedgerRevision]
  {
    hide Inspect, Billed, Funded, Filter;
    InspectSound(g, loaded);
    FilterMembers(loaded.records, OwnedBy(g.goalId));
    var record := Inspect(g, Some(loaded)).value[g.pendingUsage.value.ledgerRevision];
    assert record in Of(loaded.records, g.goalId);
    var i :| 0 <= i < |Of(loaded.records, g.goalId)| && Of(loaded.records, g.goalId)[i] == record;
  }

  lemma LimitSound(g: Goal, ledger: seq<Record>, n: Goal, now: nat)
    requires Sound(g, ledger) && NextRevision(g, now).Success? && n == Forget(Restatus(NextRevision(g, now).value, UsageLimited, COVERAGE_INCOMPLETE))
    ensures Sound(n, ledger)
  {
    hide Of, Billed, ValidRecord, ValidAdmission;
  }

  lemma ReconcileSound(g: Goal, ledger: seq<Record>, loaded: Option<Loaded>, now: nat)
    requires Sound(g, ledger) && (loaded.Some? ==> loaded.value.records == ledger)
    ensures Sound(Reconcile(g, loaded, now).goal, ledger)
  {
    hide Sound, Inspect, Apply, Of;
    var r := Inspect(g, loaded);
    if NextRevision(g, now).Success? {
      LimitSound(g, ledger, Forget(Restatus(NextRevision(g, now).value, UsageLimited, COVERAGE_INCOMPLETE)), now);
    }
    if r.Success? && g.pendingUsage.Some? && g.pendingUsage.value.ledgerRevision in r.value {
      UnloadedIsEmpty(g, loaded);
      FoundIsNext(g, loaded.value);
      CountSound(g, ledger, now);
    }
  }

  lemma UnloadedIsEmpty(g: Goal, loaded: Option<Loaded>)
    ensures g.pendingUsage.Some? && Inspect(g, loaded).Success? ==> loaded.Some?
  {}

  // ---------------------------------------------------------------- provider calls

  lemma AdmitSound(g: Goal, ledger: seq<Record>, admission: Admission, now: nat)
    requires Sound(g, ledger) && g.pendingUsage.None? && g.status == Active && g.usageLedgerRevision < MAX_U64 && NextRevision(g, now).Success?
    requires ValidAdmission(admission) && admission.ledgerRevision == g.usageLedgerRevision + 1
    requires admission.call.goalId == g.goalId && admission.call.objectiveRevision == g.objectiveRevision
    ensures Sound(NextRevision(g, now).value.(pendingUsage := Some(admission)), ledger)
  {
    hide Of, Billed, ValidRecord, ValidAdmission, BudgetRemains;
  }

  lemma InRange(g: Goal, ledger: seq<Record>)
    requires Sound(g, ledger)
    ensures g.usageLedgerRevision <= MAX_U64 && g.tokensUsed <= MAX_U64
  {}

  lemma AdmitNextKeeps(s: State, r: Reporter, roundId: string, attempt: Attempt, callId: string, now: nat, ok: bool)
    requires StateOk(s) && s.gate == 1 && s.mem.Live? && CheckAdmission(s.mem, r).None? && s.mem.goal.pendingUsage.None?
    ensures StateOk(AdmitNext(s, s.mem.goal, r, roundId, attempt, callId, now, ok).0)
  {
    hide Of, Sound, ValidAdmission, ValidSubject, InFlightCall;
    NoCalls(s);
    InRange(s.mem.goal, s.ledger);
    var n := AdmitNext(s, s.mem.goal, r, roundId, attempt, callId, now, ok).0;
    if n != s {
      AdmitSound(s.mem.goal, s.ledger, n.mem.goal.pendingUsage.value, now);
      assert n.calls == map[callId := n.calls[callId]];
      AdmittedCall(s, n, callId);
    }
  }

  lemma AdmittedCall(s: State, n: State, callId: string)
    requires s.mem.Live? && Sound(s.mem.goal, s.ledger) && s.mem.goal.pendingUsage.None? && n.ledger == s.ledger
    requires n.mem.Live? && n.disk == Some(n.mem.goal) && n.mem.goal.goalId == s.mem.goal.goalId
    requires n.mem.goal.usageLedgerRevision == s.mem.goal.usageLedgerRevision
    requires callId in n.calls && n.calls[callId].phase == Admitted && n.mem.goal.pendingUsage == Some(n.calls[callId].admission)
    requires callId == n.calls[callId].admission.call.callId
    ensures InFlightCall(n, callId, n.calls[callId])
  {}

  lemma AdmitKeeps(s: State, op: Op)
    requires StateOk(s) && op.AdmitOp?
    ensures StateOk(Admit(s, op.reporter, op.roundId, op.attempt, op.callId, op.load, op.now, op.w).0)
  {
    hide Sound, CheckAdmission, Reconcile, AdmitNext, CallsOk;
    if s.gate > 0 && s.mem.Live? {
      var g := s.mem.goal;
      GateFree(s);
      if g.pendingUsage.None? {
        if CheckAdmission(s.mem, op.reporter).None? {
          AdmitNextKeeps(s, op.reporter, op.roundId, op.attempt, op.callId, op.now, op.w.second);
        }
      } else {
        var rec := Reconcile(g, LoadLedger(s, op.load), op.now);
        ReconcileSound(g, s.ledger, LoadLedger(s, op.load), op.now);
        var s1 := if rec.changed then Save(s, rec.goal) else s;
        IdleOk(s1);
        if CheckAdmission(s1.mem, op.reporter).None? && s1.mem.goal.pendingUsage.None? {
          AdmitNextKeeps(s1, op.reporter, op.roundId, op.attempt, op.callId, op.now, op.w.second);
        }
      }
    }
  }

  lemma GateFree(s: State)
    requires CallsOk(s) && s.gate > 0
    ensures s.gate == 1 && s.calls == map[]
  {}

  lemma IdleOk(s: State)
    requires s.gate == 1 && s.calls == map[]
    ensures CallsOk(s)
  {}

  lemma OneCall(s: State, callId: string)
    requires CallsOk(s) && callId in s.calls
    ensures s.gate == 0 && s.calls == map[callId := s.calls[callId]] && InFlightCall(s, callId, s.calls[callId])
    ensures CallsOk(ReturnToken(s, callId))
  {
    assert |s.calls.Keys - {callId}| == |s.calls| - 1;
    assert s.calls.Keys - {callId} == {};
    assert s.calls == map[callId := s.calls[callId]];
    assert ReturnToken(s, callId).calls == map[];
  }

  lemma OfAppend(ledger: seq<Record>, record: Record, goalId: string)
    ensures Of(ledger + [record], goalId) == if record.call.goalId == goalId then Of(ledger, goalId) + [record] else Of(ledger, goalId)
  {
    FilterAppend(ledger, [record], OwnedBy(goalId));
    FilterCons(record, [], OwnedBy(goalId));
    assert [record] + [] == [record];
  }

  /** The record of the pending admission may be added to the ledger once. */
  lemma AppendSound(g: Goal, ledger: seq<Record>, record: Record)
    requires Sound(g, ledger) && g.pendingUsage.Some? && Matches(record, g.pendingUsage.value) && ValidRecord(record)
    requires |Of(ledger, g.goalId)| == g.usageLedgerRevision
    ensures Sound(g, ledger + [record]) && Of(ledger + [record], g.goalId) == Of(ledger, g.goalId) + [record]
  {
    hide Of, Billed, ValidRecord, ValidAdmission, BudgetRemains;
    OfAppend(ledger, record, g.goalId);
    assert (Of(ledger, g.goalId) + [record])[..g.usageLedgerRevision] == Of(ledger, g.goalId)[..g.usageLedgerRevision];
  }

  lemma RecordKeeps(s: State, op: Op)
    requires StateOk(s) && op.RecordOp?
    ensures StateOk(RecordUsage(s, op.callId, op.usage, op.append).0)
  {
    hide Of, Sound, Normalize, ValidRecord, CallsOk;
    var id := op.callId;
    var n := RecordUsage(s, id, op.usage, op.append).0;
    if id in s.calls && s.calls[id].phase == Admitted {
      OneCall(s, id);
      var call := s.calls[id];
      assert n.calls == map[id := n.calls[id]];
      if n.ledger != s.ledger {
        var record := n.ledger[|s.ledger|];
        AppendSound(s.mem.goal, s.ledger, record);
      }
      OneCallOk(n, id);
    }
  }

  lemma OneCallOk(s: State, callId: string)
    requires s.gate == 0 && callId in s.calls && s.calls == map[callId := s.calls[callId]] && InFlightCall(s, callId, s.calls[callId])
    ensures CallsOk(s)
  {
    hide InFlightCall;
    assert |s.calls| == |s.calls.Keys| == |{callId}|;
  }

  lemma SavedIdle(s: State, g: Goal)
    requires CallsOk(s) && s.gate == 1 && Sound(g, s.ledger)
    ensures StateOk(Save(s, g))
  {
    hide Sound;
    GateFree(s);
  }

  lemma IdleStateOk(s: State, n: State)
    requires StateOk(s) && n.mem == s.mem && n.disk == s.disk && n.ledger == s.ledger && n.gate == 1 && n.calls == map[]
    ensures StateOk(n)
  {
    hide Sound;
  }

  lemma CountKeeps(s: State, op: Op)
    requires StateOk(s) && op.CountOp?
    ensures StateOk(CountUsage(s, op.callId, op.now, op.ok).0)
  {
    hide Of, Sound, Apply, CallsOk, InFlightCall, StateOk;
    if op.callId in s.calls && s.calls[op.callId].phase.Recorded? {
      Calling(s, op.callId);
      var over := ReturnToken(s, op.callId);
      CountSound(s.mem.goal, s.ledger, op.now);
      var counted := Apply(s.mem.goal, s.calls[op.callId].phase.record, op.now);
      if counted.Success? { SavedIdle(over, counted.value); }
    }
  }

  /** What is known when a call in flight settles. */
  lemma Calling(s: State, callId: string)
    requires StateOk(s) && callId in s.calls
    ensures s.mem.Live? && Sound(s.mem.goal, s.ledger) && s.mem.goal.pendingUsage == Some(s.calls[callId].admission)
    ensures StateOk(ReturnToken(s, callId)) && CallsOk(ReturnToken(s, callId)) && ReturnToken(s, callId).gate == 1
    ensures s.calls[callId].phase == Admitted ==> |Of(s.ledger, s.mem.goal.goalId)| == s.mem.goal.usageLedgerRevision
    ensures s.calls[callId].phase.Recorded? ==>
      |Of(s.ledger, s.mem.goal.goalId)| == s.mem.goal.usageLedgerRevision + 1 &&
      Of(s.ledger, s.mem.goal.goalId)[s.mem.goal.usageLedgerRevision] == s.calls[callId].phase.record
  {
    hide Sound, Of, CallsOk;
    OneCall(s, callId);
    GateFree(ReturnToken(s, callId));
    IdleStateOk(s, ReturnToken(s, callId));
  }

  lemma ReleaseSound(g: Goal, ledger: seq<Record>, now: nat)
    requires Sound(g, ledger) && |Of(ledger, g.goalId)| == g.usageLedgerRevision && NextRevision(g, now).Success?
    ensures Sound(NextRevision(g, now).value.(pendingUsage := None), ledger)
  {
    hide Of, Billed, ValidRecord, ValidAdmission;
  }

  lemma ReleaseKeeps(s: State, op: Op)
    requires StateOk(s) && op.ReleaseOp?
    ensures StateOk(ReleaseCall(s, op.callId, op.now, op.ok).0)
  {
    hide Of, Sound, CallsOk, StateOk, NextRevision;
    if op.callId in s.calls && s.calls[op.callId].phase == Admitted {
      Calling(s, op.callId);
      if NextRevision(s.mem.goal, op.now).Success? {
        ReleaseSound(s.mem.goal, s.ledger, op.now);
        SavedIdle(ReturnToken(s, op.callId), NextRevision(s.mem.goal, op.now).value.(pendingUsage := None));
      }
    }
  }

  lemma AmbiguousKeeps(s: State, op: Op)
    requires StateOk(s) && op.AmbiguousOp?
    ensures StateOk(MarkAmbiguous(s, op.callId, op.now, op.ok).0)
  {
    hide Of, Sound, CallsOk, StateOk, NextRevision;
    if op.callId in s.calls && !s.calls[op.callId].phase.Recorded? {
      Calling(s, op.callId);
      var over := ReturnToken(s, op.callId).(uncertain := true);
      GateFree(ReturnToken(s, op.callId));
      IdleStateOk(s, over);
      IdleOk(over);
      if NextRevision(s.mem.goal, op.now).Success? {
        var n := Forget(Restatus(NextRevision(s.mem.goal, op.now).value, UsageLimited, COVERAGE_INCOMPLETE));
        LimitSound(s.mem.goal, s.ledger, n, op.now);
        SavedIdle(over, n);
      }
    }
  }

  // ---------------------------------------------------------------- restart and checkpoint

  lemma PausedSound(g: Goal, ledger: seq<Record>, now: nat)
    requires Sound(g, ledger)
    ensures Sound(Forget(Restatus(g, Paused, COLD).(revision := g.revision + 1, updatedAt := now)), ledger)
  {
    hide Of, Billed, ValidRecord, ValidAdmission;
  }

  lemma RestartKeeps(s: State, op: Op)
    requires StateOk(s) && op.RestartOp?
    ensures StateOk(Restart(s, op.coord, op.load, op.now, op.ok).0)
  {
    hide Sound, Reconcile, ValidGoal, CallsOk;
    IdleOk(Restart(s, op.coord, op.load, op.now, op.ok).0);
    if s.disk.Some? {
      var raw, loaded := s.disk.value, LoadLedger(s, op.load);
      ReconcileSound(raw, s.ledger, loaded, op.now);
      PausedSound(Reconcile(raw, loaded, op.now).goal, s.ledger, op.now);
    }
  }

  lemma CheckpointKeeps(s: State, op: Op)
    requires StateOk(s) && op.CheckpointOp?
    ensures StateOk(Checkpoint(s, op.ok).0)
  {
    hide Sound, Of;
    var n := Checkpoint(s, op.ok).0;
    forall id | id in n.calls ensures InFlightCall(n, id, n.calls[id]) { assert InFlightCall(s, id, s.calls[id]); }
  }

  lemma StepKeeps(s: State, op: Op)
    requires StateOk(s) && (op.CreateOp? ==> Of(s.ledger, op.id) == [])
    ensures StateOk(Step(s, op).0)
  {
    hide StateOk, Of, Transition, Clear, Admit, RecordUsage, CountUsage, ReleaseCall, MarkAmbiguous, Restart, Checkpoint,
      RequestCompletion, ReportBlocker, OpenWait, CloseWait, MarkDelivered, AbandonTurn, BeginTurn, Terminal, CancelPause, ReconcileContinuation;
    if Plain(op) { PlainKeeps(s, op); }
    else if op.CreateOp? { CreateKeeps(s, op); }
    else if op.ClearOp? { ClearKeeps(s, op); }
    else if op.AdmitOp? { AdmitKeeps(s, op); }
    else if op.RecordOp? { RecordKeeps(s, op); }
    else if op.CountOp? { CountKeeps(s, op); }
    else if op.ReleaseOp? { ReleaseKeeps(s, op); }
    else if op.AmbiguousOp? { AmbiguousKeeps(s, op); }
    else if op.RestartOp? { RestartKeeps(s, op); }
    else { CheckpointKeeps(s, op); }
  }

  // ---------------------------------------------------------------- the history

  /** Every step leaves on disk what was there, or what memory now holds; and only `RecordUsage` adds to the ledger. */
  predicate Written(s: State, op: Op, n: State) {
    && (n.disk == s.disk || n.disk == Persisted(n.mem))
    && (n.mem.Unavailable? ==> Persisted(n.mem) == Persisted(s.mem) || s.disk == Some(n.mem.raw))
    && (!op.RecordOp? ==> n.ledger == s.ledger)
  }

  lemma DiskWritten(s: State, op: Op)
    ensures Written(s, op, Step(s, op).0)
  {
    hide Step, Moves, Permits, Accounts, Reconcile, ValidGoal;
    StepOf(s, op);
    if Plain(op) { PlainQuiet(s, op); }
    else if Billing(op) { UsageAccounts(s, op); LedgerStays(s, op); }
    else if op.ClearOp? { ClearShape(s, op); }
    else if op.CreateOp? { CreateShape(s, op); }
  }

  lemma LedgerStays(s: State, op: Op)
    requires Billing(op)
    ensures !op.RecordOp? ==> Step(s, op).0.ledger == s.ledger
  {
    hide Step, Reconcile, CheckAdmission, Apply, ValidAdmission;
    StepOf(s, op);
  }

  predicate BooksOk(w: World) {
    StateOk(w.s) && Known(w.s, w.h.ids)
  }

  lemma RecordKnown(s: State, op: Op, ids: set<string>)
    requires StateOk(s) && Known(s, ids) && op.RecordOp?
    ensures var n := RecordUsage(s, op.callId, op.usage, op.append).0; forall i :: 0 <= i < |n.ledger| ==> n.ledger[i].call.goalId in ids
  {
    hide Of, Balanced, Funded, Normalize, ValidRecord;
    if op.callId in s.calls { OneCall(s, op.callId); }
  }

  lemma NextKeeps(w: World, op: Op)
    requires BooksOk(w) && Allowed(w, op)
    ensures BooksOk(Next(w, op))
  {
    hide Step, StateOk, Logged, FreeTime;
    if op.CreateOp? { UnusedIsEmpty(w.s, w.h.ids, op.id); }
    StepKeeps(w.s, op);
    DiskWritten(w.s, op);
    StepOf(w.s, op);
    if op.RecordOp? { RecordKnown(w.s, op, w.h.ids); }
    StoredOf(w.s);
    StoredOf(Step(w.s, op).0);
  }

  lemma StoredOf(s: State)
    requires StateOk(s)
    ensures Stored(s)
  {}

  lemma {:induction false} NoneOwned(ledger: seq<Record>, id: string)
    requires forall i :: 0 <= i < |ledger| ==> ledger[i].call.goalId != id
    ensures Of(ledger, id) == []
  {
    if ledger != [] { NoneOwned(ledger[1..], id); }
  }

  lemma UnusedIsEmpty(s: State, ids: set<string>, id: string)
    requires Known(s, ids) && id !in ids
    ensures Of(s.ledger, id) == []
  {
    NoneOwned(s.ledger, id);
  }

  lemma {:induction false} RunKeeps(w: World, ops: seq<Op>)
    requires BooksOk(w) && AllowedRun(w, ops)
    ensures BooksOk(Run(w, ops))
    decreases |ops|
  {
    hide BooksOk, Next, Allowed;
    if ops != [] {
      NextKeeps(w, ops[0]);
      RunKeeps(Next(w, ops[0]), ops[1..]);
    }
  }

  lemma InitBooks(c: L.Coord)
    ensures BooksOk(Init(c))
  {}
}
