/** Provider calls step by step and from admission to settlement, and what a restart makes of an outstanding one. */
module GoalCalls {
  import opened Basics
  import opened RuntimeTypes
  import opened UsageNormalize
  import opened GoalTypes
  import opened GoalUsage
  import opened GoalMachine
  import opened GoalRuns
  import opened GoalSteps
  import opened GoalOutcomes
  import B = GoalBooks
  import C = GoalConservation
  import D = GoalStored
  import L = InputLedger

  // ---------------------------------------------------------------- one step of a call

  /** The reporter is bound to this Goal, its objective and its turn. */
  predicate Bound(g: Goal, r: Reporter) {
    && !r.revoked && r.goalId != "" && r.objectiveRevision != 0 && r.rootSessionId != "" && r.rootThreadId != ""
    && g.goalId == r.goalId && g.objectiveRevision == r.objectiveRevision && g.lastTurnId == r.turnId
    && ValidSubject(r.rootSessionId, r.rootThreadId, r.subject)
  }

  /** The admission a call gets: the next ledger revision, and everything that names the call. */
  function AdmissionFor(g: Goal, op: Op): (r: Admission)
    requires op.AdmitOp?
  {
    var r := op.reporter;
    Admission(g.usageLedgerRevision + 1,
      CallIdentity(g.goalId, g.objectiveRevision, r.rootSessionId, r.rootThreadId, r.subject, g.lastTurnId, op.roundId, op.attempt, op.callId), op.now)
  }

  /** With nothing outstanding, a call is admitted exactly when the gate is free, its reporter is bound and the Goal is active. */
  lemma AdmitExact(s: State, op: Op)
    requires op.AdmitOp? && (s.mem.Live? ==> s.mem.goal.pendingUsage.None?)
    ensures var (n, reply) := Step(s, op);
      && (reply == Done <==>
            && s.mem.Live? && s.mem.goal.status == Active && Bound(s.mem.goal, op.reporter) && op.roundId != "" && op.callId != ""
            && s.gate > 0 && !s.uncertain && s.mem.goal.usageLedgerRevision != MAX_U64 && s.mem.goal.revision != MAX_U64
            && ValidAdmission(AdmissionFor(s.mem.goal, op)) && op.w.second)
      && (reply != Done ==> n == s)
      && (reply == Done ==>
            var g, a := s.mem.goal, AdmissionFor(s.mem.goal, op);
            var next := g.(revision := g.revision + 1, updatedAt := op.now, pendingUsage := Some(a));
            n == s.(mem := Live(next), disk := Some(next), gate := 0, calls := s.calls[op.callId := Call(a, Admitted)]))
  {
    StepOf(s, op);
    hide Step, Reconcile, ValidAdmission, ValidSubject;
  }

  /** What the books say of a call in flight. */
  lemma InFlight(c: L.Coord, ops: seq<Op>, callId: string)
    requires AllowedRun(Init(c), ops)
    ensures var s := Run(Init(c), ops).s;
      callId in s.calls ==>
        && s.gate == 0 && s.calls == map[callId := s.calls[callId]]
        && s.mem.Live? && s.disk == Some(s.mem.goal) && s.mem.goal.pendingUsage == Some(s.calls[callId].admission)
        && s.calls[callId].admission.ledgerRevision == s.mem.goal.usageLedgerRevision + 1
        && ValidAdmission(s.calls[callId].admission)
        && (s.calls[callId].phase.Recorded? ==>
              ValidRecord(s.calls[callId].phase.record) && Matches(s.calls[callId].phase.record, s.calls[callId].admission))
  {
    hide Run, AllowedRun, B.Known, B.Of, B.Billed, ValidAdmission, ValidRecord;
    B.InitBooks(c);
    B.RunKeeps(Init(c), ops);
    var s := Run(Init(c), ops).s;
    if callId in s.calls {
      assert B.InFlightCall(s, callId, s.calls[callId]);
      OnlyCall(s.calls, callId);
    }
  }

  lemma OnlyCall(calls: map<string, Call>, callId: string)
    requires callId in calls && |calls| <= 1
    ensures calls == map[callId := calls[callId]]
  {
    forall k | k in calls ensures k == callId {
      assert |calls.Keys| == |calls| && {callId, k} <= calls.Keys;
      if k != callId { Larger({callId, k}, calls.Keys); }
    }
  }

  lemma Larger(a: set<string>, b: set<string>)
    requires a <= b
    ensures |a| <= |b|
  {
    assert b == a + (b - a) && |b| == |a| + |b - a|;
  }

  /** A well-reported call puts exactly its record into the ledger; any other outcome leaves the call without one. */
  lemma RecordExact(c: L.Coord, ops: seq<Op>, op: Op)
    requires AllowedRun(Init(c), ops) && op.RecordOp?
    ensures var s := Run(Init(c), ops).s;
      var (n, reply) := Step(s, op);
      var waiting := op.callId in s.calls && s.calls[op.callId].phase == Admitted;
      && (reply == Done <==> waiting && WellReported(op.usage) && op.append == Appended)
      && (!waiting ==> n == s)
      && (waiting ==>
            var a := s.calls[op.callId].admission;
            if WellReported(op.usage) && op.append != Lost then
              var record := Record(a.ledgerRevision, a.call, Normalize(op.usage).value);
              n == s.(ledger := s.ledger + [record],
                      calls := s.calls[op.callId := Call(a, if op.append == Appended then Phase.Recorded(record) else Unreported)])
            else n == s.(calls := s.calls[op.callId := Call(a, Unreported)]))
  {
    var s := Run(Init(c), ops).s;
    InFlight(c, ops, op.callId);
    StepOf(s, op);
    NormalizeExact(op.usage);
    hide Run, AllowedRun, Step, Normalize, ValidTokens, WellReported;
  }

  /** The Goal with this many more tokens counted. */
  function Counted(g: Goal, bill: nat, now: nat): (r: Goal) {
    var counted := g.(revision := g.revision + 1, updatedAt := now, tokensUsed := g.tokensUsed + bill,
      usageLedgerRevision := g.usageLedgerRevision + 1, pendingUsage := None);
    if g.tokenBudget.Some? && g.tokensUsed + bill >= g.tokenBudget.value
    then counted.(status := BudgetLimited, reasonCode := "budget-exhausted", pendingComplete := None, blockerKey := "", blockerTurns := [])
    else counted
  }

  lemma ApplyIs(g: Goal, record: Record, now: nat)
    requires g.pendingUsage.Some? && ValidRecord(record) && Matches(record, g.pendingUsage.value)
    requires g.pendingUsage.value.ledgerRevision == g.usageLedgerRevision + 1
    ensures var r := Apply(g, record, now);
      && (r.Success? <==> g.tokensUsed + record.tokens.billable <= MAX_U64 && g.revision != MAX_U64)
      && (r.Success? ==> r.value == Counted(g, record.tokens.billable, now))
  {
    hide ValidRecord;
  }

  /** A counted call adds exactly its billable tokens, moves the ledger revision by one and clears the admission. */
  lemma CountExact(c: L.Coord, ops: seq<Op>, op: Op)
    requires AllowedRun(Init(c), ops) && op.CountOp?
    ensures var s := Run(Init(c), ops).s;
      var (n, reply) := Step(s, op);
      var recorded := op.callId in s.calls && s.calls[op.callId].phase.Recorded?;
      && (!recorded ==> n == s && reply != Done)
      && (recorded ==>
            && s.mem.Live?
            && var g, bill := s.mem.goal, s.calls[op.callId].phase.record.tokens.billable;
            var next := Counted(g, bill, op.now);
            && (reply == Done <==> g.tokensUsed + bill <= MAX_U64 && g.revision != MAX_U64 && op.ok)
            && (reply == Done ==> n == s.(mem := Live(next), disk := Some(next), gate := 1, calls := map[]))
            && (reply != Done ==> n == s.(gate := 1, calls := map[])))
  {
    var s := Run(Init(c), ops).s;
    InFlight(c, ops, op.callId);
    StepOf(s, op);
    if op.callId in s.calls {
      Gone(s.calls, op.callId);
      if s.calls[op.callId].phase.Recorded? { ApplyIs(s.mem.goal, s.calls[op.callId].phase.record, op.now); }
    }
    hide Run, AllowedRun, Step, ValidRecord, ValidAdmission, Matches, Apply, Counted;
  }

  lemma Gone(calls: map<string, Call>, callId: string)
    requires callId in calls && calls == map[callId := calls[callId]]
    ensures calls - {callId} == map[]
  {}

  /** A release that answers Done leaves the Goal it found without the admission, one revision on, and the gate free again. */
  lemma ReleaseExact(c: L.Coord, ops: seq<Op>, op: Op)
    requires AllowedRun(Init(c), ops) && op.ReleaseOp?
    ensures var s := Run(Init(c), ops).s;
      var (n, reply) := Step(s, op);
      var waiting := op.callId in s.calls && s.calls[op.callId].phase == Admitted;
      && (!waiting ==> n == s && reply != Done)
      && (waiting ==>
            && s.mem.Live?
            && var g := s.mem.goal;
            var next := g.(revision := g.revision + 1, updatedAt := op.now, pendingUsage := None);
            && (reply == Done <==> g.revision != MAX_U64 && op.ok)
            && (reply == Done ==> n == s.(mem := Live(next), disk := Some(next), gate := 1, calls := map[]))
            && (reply != Done ==> n == s.(gate := 1, calls := map[])))
  {
    var s := Run(Init(c), ops).s;
    InFlight(c, ops, op.callId);
    StepOf(s, op);
    if op.callId in s.calls { Gone(s.calls, op.callId); }
    hide Run, AllowedRun, Step, ValidRecord, ValidAdmission;
  }

  /** A call in doubt limits the Goal, keeps its admission, and sets the doubt that refuses every later call of the session. */
  lemma AmbiguousExact(c: L.Coord, ops: seq<Op>, op: Op)
    requires AllowedRun(Init(c), ops) && op.AmbiguousOp?
    ensures var s := Run(Init(c), ops).s;
      var (n, reply) := Step(s, op);
      var open := op.callId in s.calls && !s.calls[op.callId].phase.Recorded?;
      && (!open ==> n == s && reply != Done)
      && (open ==>
            && s.mem.Live?
            && var g := s.mem.goal;
            var next := g.(revision := g.revision + 1, updatedAt := op.now, status := UsageLimited, reasonCode := "usage-coverage-incomplete",
              pendingComplete := None, blockerKey := "", blockerTurns := []);
            && (reply == Done <==> g.revision != MAX_U64 && op.ok)
            && (reply == Done ==> n == s.(mem := Live(next), disk := Some(next), gate := 1, calls := map[], uncertain := true))
            && (reply != Done ==> n == s.(gate := 1, calls := map[], uncertain := true)))
  {
    var s := Run(Init(c), ops).s;
    InFlight(c, ops, op.callId);
    StepOf(s, op);
    if op.callId in s.calls { Gone(s.calls, op.callId); }
    hide Run, AllowedRun, Step, ValidRecord, ValidAdmission;
  }

  // ---------------------------------------------------------------- a whole call

  lemma {:induction false} RunMore(w: World, ops: seq<Op>, op: Op)
    ensures Run(w, ops + [op]) == Next(Run(w, ops), op)
    ensures AllowedRun(w, ops + [op]) <==> AllowedRun(w, ops) && Allowed(Run(w, ops), op)
    decreases |ops|
  {
    hide Next, Allowed;
    if ops == [] {
      assert ([] + [op])[1..] == [];
      assert Run(w, [op]) == Run(Next(w, op), []);
      assert AllowedRun(Next(w, op), []);
    } else {
      assert (ops + [op])[1..] == ops[1..] + [op];
      RunMore(Next(w, ops[0]), ops[1..], op);
    }
  }

  /** The state and the reply of one more step. */
  lemma StepMore(c: L.Coord, ops: seq<Op>, op: Op)
    ensures Run(Init(c), ops + [op]).s == Step(Run(Init(c), ops).s, op).0
  {
    hide Step, Observe, Run;
    RunMore(Init(c), ops, op);
  }

  /** A call released before its dispatch leaves no trace but two revisions: the Goal, the gate and the ledger are as before. */
  lemma ReleaseUndoesAdmit(c: L.Coord, ops: seq<Op>, admit: Op, release: Op)
    requires admit.AdmitOp? && release.ReleaseOp? && release.callId == admit.callId && release.ok && AllowedRun(Init(c), ops + [admit])
    requires var s := Run(Init(c), ops).s;
      s.mem.Live? && s.mem.goal.pendingUsage.None? && s.mem.goal.revision < MAX_U64 - 1 && Step(s, admit).1 == Done
    ensures var s := Run(Init(c), ops).s;
      var (n, reply) := Step(Step(s, admit).0, release);
      var g := s.mem.goal.(revision := s.mem.goal.revision + 2, updatedAt := release.now);
      reply == Done && n == s.(mem := Live(g), disk := Some(g), gate := 1, calls := map[])
  {
    hide Run, AllowedRun, Step, Bound, ValidAdmission;
    var s := Run(Init(c), ops).s;
    StepMore(c, ops, admit);
    AdmitExact(s, admit);
    ReleaseExact(c, ops + [admit], release);
  }

  /** An admitted call that is reported well, appended and counted adds its record to the ledger and its tokens to the Goal. */
  lemma CallCycle(c: L.Coord, ops: seq<Op>, admit: Op, record: Op, count: Op)
    requires admit.AdmitOp? && record.RecordOp? && count.CountOp? && record.callId == admit.callId == count.callId && count.ok
    requires WellReported(record.usage) && record.append == Appended && AllowedRun(Init(c), ops + [admit] + [record])
    requires var s := Run(Init(c), ops).s;
      && s.mem.Live? && s.mem.goal.pendingUsage.None? && s.mem.goal.revision < MAX_U64 - 1 && Step(s, admit).1 == Done
      && s.mem.goal.tokensUsed + Normalize(record.usage).value.billable <= MAX_U64
    ensures var s := Run(Init(c), ops).s;
      var (n, reply) := Step(Step(Step(s, admit).0, record).0, count);
      var tokens := Normalize(record.usage).value;
      var a := AdmissionFor(s.mem.goal, admit);
      var g := Counted(s.mem.goal.(revision := s.mem.goal.revision + 1), tokens.billable, count.now);
      && reply == Done
      && n == s.(mem := Live(g), disk := Some(g), gate := 1, calls := map[], ledger := s.ledger + [Record(a.ledgerRevision, a.call, tokens)])
  {
    hide *;
    NormalizeExact(record.usage);
    RunMore(Init(c), ops + [admit], record);
    CallRecorded(c, ops, admit, record);
    StepMore(c, ops + [admit], record);
    StepMore(c, ops, admit);
    CountExact(c, ops + [admit] + [record], count);
    var g := Run(Init(c), ops).s.mem.goal;
    SameCounted(g, AdmissionFor(g, admit), Normalize(record.usage).value.billable, admit.now, count.now);
  }

  lemma SameCounted(g: Goal, a: Admission, bill: nat, at: nat, now: nat)
    ensures Counted(g.(revision := g.revision + 1, updatedAt := at, pendingUsage := Some(a)), bill, now) == Counted(g.(revision := g.revision + 1), bill, now)
  {}

  /** The first two thirds of it. */
  lemma CallRecorded(c: L.Coord, ops: seq<Op>, admit: Op, record: Op)
    requires admit.AdmitOp? && record.RecordOp? && record.callId == admit.callId && WellReported(record.usage) && record.append == Appended
    requires AllowedRun(Init(c), ops + [admit]) && Normalize(record.usage).Success?
    requires var s := Run(Init(c), ops).s; s.mem.Live? && s.mem.goal.pendingUsage.None? && Step(s, admit).1 == Done
    ensures var s := Run(Init(c), ops).s;
      var n := Step(Step(s, admit).0, record).0;
      var a := AdmissionFor(s.mem.goal, admit);
      var g := s.mem.goal.(revision := s.mem.goal.revision + 1, updatedAt := admit.now, pendingUsage := Some(a));
      var entry := Record(a.ledgerRevision, a.call, Normalize(record.usage).value);
      n == s.(mem := Live(g), disk := Some(g), gate := 0, calls := s.calls[admit.callId := Call(a, Phase.Recorded(entry))], ledger := s.ledger + [entry])
  {
    hide Run, AllowedRun, Step, Bound, ValidAdmission, Normalize, WellReported;
    var s := Run(Init(c), ops).s;
    StepMore(c, ops, admit);
    AdmitExact(s, admit);
    RecordExact(c, ops + [admit], record);
  }

  // ---------------------------------------------------------------- an outstanding call

  /** The Goal limited because a call's usage is not known; it keeps the admission. */
  function Unknown(g: Goal, now: nat): (r: Goal) {
    g.(status := UsageLimited, reasonCode := "usage-coverage-incomplete", revision := g.revision + 1, updatedAt := now,
       pendingComplete := None, blockerKey := "", blockerTurns := [])
  }

  /** What a readable ledger makes of the Goal: its outstanding record is counted, or the Goal is limited. */
  function CaughtUp(g: Goal, records: seq<Record>, now: nat): (r: Goal) {
    if g.pendingUsage.None? then g
    else if |records| > g.usageLedgerRevision && g.tokensUsed + records[g.usageLedgerRevision].tokens.billable <= MAX_U64
    then Counted(g, records[g.usageLedgerRevision].tokens.billable, now)
    else Unknown(g, now)
  }

  lemma ReconcileIs(g: Goal, ledger: seq<Record>, now: nat)
    requires B.Sound(g, ledger) && g.revision < MAX_U64
    ensures var r, records := Reconcile(g, Some(Loaded(ledger, false)), now), B.Of(ledger, g.goalId);
      && r.goal == CaughtUp(g, records, now)
      && (r.changed <==> g.pendingUsage.Some?)
      && (r.error.None? <==> g.pendingUsage.None? || r.goal.pendingUsage.None?)
  {
    hide B.Of, Inspect, ValidRecord, ValidAdmission, Apply, B.Billed, B.Funded, Counted;
    var records := B.Of(ledger, g.goalId);
    C.InspectAll(g, ledger);
    if g.pendingUsage.Some? && |records| > g.usageLedgerRevision { ApplyIs(g, records[g.usageLedgerRevision], now); CountedClears(g, records[g.usageLedgerRevision].tokens.billable, now); }
  }

  lemma CountedClears(g: Goal, bill: nat, now: nat)
    ensures Counted(g, bill, now).pendingUsage.None?
  {}

  /** After a restart no Goal runs on without a waiting cursor: an active one is paused, its evidence dropped. */
  function Cold(g: Goal, now: nat): (r: Goal) {
    if g.status == Active && !Waits(g.continuation) then
      g.(status := Paused, reasonCode := "cold-continuation-unavailable", revision := g.revision + 1, updatedAt := now,
         pendingComplete := None, blockerKey := "", blockerTurns := [])
    else g
  }

  /**
   * After any run, a restart over a readable ledger brings back exactly the stored Goal, with its outstanding record counted
   * and without running on, and forgets the turn, the calls and the doubt of the session before.
   */
  lemma RestartExact(c: L.Coord, ops: seq<Op>, op: Op)
    requires AllowedRun(Init(c), ops) && op.RestartOp? && op.load == Readable(false)
    requires var disk := Run(Init(c), ops).s.disk; disk.Some? && D.CursorFits(disk.value) && disk.value.revision < MAX_U64 - 1
    ensures var s := Run(Init(c), ops).s;
      var (n, reply) := Step(s, op);
      var g := Cold(CaughtUp(s.disk.value, B.Of(s.ledger, s.disk.value.goalId), op.now), op.now);
      && n == State(Live(g), if op.ok then Some(g) else s.disk, None, s.ledger, 1, map[], false, op.coord)
      && (reply == Done <==> op.ok)
  {
    hide Run, AllowedRun, Step, B.Known, B.CallsOk, B.Sound, B.Of, Reconcile, ValidGoal, BoundCursor, CaughtUp;
    B.InitBooks(c);
    B.RunKeeps(Init(c), ops);
    D.StoredGoalExact(c, ops);
    var s := Run(Init(c), ops).s;
    StepOf(s, op);
    ReconcileIs(s.disk.value, s.ledger, op.now);
    OneMoreRevision(s.disk.value, B.Of(s.ledger, s.disk.value.goalId), op.now);
  }

  /** A restart that cannot read the usage it owes limits the Goal instead of guessing; a completed one is left alone. */
  lemma RestartUnreadable(c: L.Coord, ops: seq<Op>, op: Op)
    requires AllowedRun(Init(c), ops) && op.RestartOp?
    requires var disk := Run(Init(c), ops).s.disk; disk.Some? && D.CursorFits(disk.value) && disk.value.revision < MAX_U64 - 1
    requires op.load == Unreadable || (op.load == Readable(true) && Owes(Run(Init(c), ops).s.disk.value))
    ensures var s := Run(Init(c), ops).s;
      var n := Step(s, op).0;
      var g := s.disk.value;
      n.mem == Live(if !Owes(g) then Cold(g, op.now) else if g.status == Complete then g else Unknown(g, op.now))
  {
    hide Run, AllowedRun, Step, ValidGoal, BoundCursor, Collect, Apply;
    D.StoredGoalExact(c, ops);
    var s := Run(Init(c), ops).s;
    StepOf(s, op);
    NoLoad(s.disk.value, LoadLedger(s, op.load));
  }

  /** Some usage has been counted, or a call is outstanding. */
  predicate Owes(g: Goal) {
    g.usageLedgerRevision > 0 || g.pendingUsage.Some?
  }

  lemma NoLoad(g: Goal, loaded: Option<Loaded>)
    requires loaded.None? || (loaded.value.corrupt && Owes(g))
    ensures if Owes(g) then Inspect(g, loaded).Failure? else Inspect(g, loaded) == Success(map[])
  {
    hide Collect;
  }

  /** A stored Goal that validation refuses is shown as paused and without evidence, and its record stays on disk as it was. */
  lemma WithheldExact(s: State, op: Op)
    requires op.RestartOp? && s.disk.Some? && !ValidGoal(s.disk.value)
    ensures var (n, reply) := Step(s, op);
      var raw := s.disk.value;
      && (reply == Done <==> op.ok)
      && n == State(Unavailable(raw, raw.(status := Paused, reasonCode := "corrupt-state", pendingComplete := None, blockerKey := "", blockerTurns := [])),
                    Some(raw), None, s.ledger, 1, map[], false, op.coord)
  {
    hide Step, ValidGoal, Reconcile;
    StepOf(s, op);
  }

  lemma OneMoreRevision(g: Goal, records: seq<Record>, now: nat)
    ensures CaughtUp(g, records, now).revision <= g.revision + 1
  {}

  /**
   * A Goal left with an admission by a count that could not be written is settled by the next call: with a readable ledger
   * its record is counted first, and the new call is admitted on the result; without a record the Goal is limited.
   */
  lemma AdmitSettlesFirst(c: L.Coord, ops: seq<Op>, op: Op)
    requires AllowedRun(Init(c), ops) && op.AdmitOp? && op.load == Readable(false) && op.w.first && op.w.second
    requires var s := Run(Init(c), ops).s;
      && s.mem.Live? && s.mem.goal.status == Active && s.mem.goal.pendingUsage.Some? && s.mem.goal.revision < MAX_U64 - 1
      && s.gate > 0 && !s.uncertain && Bound(s.mem.goal, op.reporter) && op.roundId != "" && op.callId != ""
    ensures var s := Run(Init(c), ops).s;
      var (n, reply) := Step(s, op);
      var g := CaughtUp(s.mem.goal, B.Of(s.ledger, s.mem.goal.goalId), op.now);
      var a := AdmissionFor(g, op);
      if g.pendingUsage.None? && g.status == Active && g.usageLedgerRevision != MAX_U64 && ValidAdmission(a) then
        var next := g.(revision := g.revision + 1, updatedAt := op.now, pendingUsage := Some(a));
        reply == Done && n == s.(mem := Live(next), disk := Some(next), gate := 0, calls := s.calls[op.callId := Call(a, Admitted)])
      else reply != Done && n == s.(mem := Live(g), disk := Some(g))
  {
    hide Run, AllowedRun, Step, B.Known, B.CallsOk, B.Sound, B.Of, Reconcile, ValidAdmission, ValidSubject, CaughtUp;
    B.InitBooks(c);
    B.RunKeeps(Init(c), ops);
    var s := Run(Init(c), ops).s;
    StepOf(s, op);
    ReconcileIs(s.mem.goal, s.ledger, op.now);
    OneMoreRevision(s.mem.goal, B.Of(s.ledger, s.mem.goal.goalId), op.now);
    CaughtKeeps(s.mem.goal, B.Of(s.ledger, s.mem.goal.goalId), op.now);
  }

  lemma CaughtKeeps(g: Goal, records: seq<Record>, now: nat)
    ensures var n := CaughtUp(g, records, now);
      n.goalId == g.goalId && n.objectiveRevision == g.objectiveRevision && n.lastTurnId == g.lastTurnId &&
      (n.pendingUsage.Some? && g.pendingUsage.Some? ==> n.status == UsageLimited)
  {}
}
