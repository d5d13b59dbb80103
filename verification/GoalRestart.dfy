/** A completed Goal across a restart, in runs where a turn asks for completion only after a counted provider call. */
module GoalRestart {
  import opened Basics
  import opened RuntimeTypes
  import opened GoalTypes
  import opened GoalUsage
  import opened GoalMachine
  import opened GoalRuns
  import opened GoalSteps
  import B = GoalBooks
  import C = GoalConservation
  import D = GoalStored
  import V = GoalVersion
  import L = InputLedger

  /** A world, and the ledger revision of the Goal when its current turn began. */
  datatype Metered = Metered(w: World, began: nat)

  ghost function MeterNext(m: Metered, op: Op): (r: Metered) {
    var n := Next(m.w, op);
    Metered(n, if m.w.s.turn.None? && n.s.turn.Some? && n.s.mem.Live? then n.s.mem.goal.usageLedgerRevision else m.began)
  }

  /** Completion is requested by a tool call, so by a response of this very turn, whose usage has been counted. */
  predicate Fair(m: Metered, op: Op) {
    Allowed(m.w, op) &&
    (op.CompletionOp? && m.w.s.turn.Some? && m.w.s.mem.Live? ==> m.w.s.mem.goal.usageLedgerRevision > m.began)
  }

  ghost function MeterRun(m: Metered, ops: seq<Op>): (r: Metered)
    decreases |ops|
  {
    if ops == [] then m else MeterRun(MeterNext(m, ops[0]), ops[1..])
  }

  ghost predicate FairRun(m: Metered, ops: seq<Op>)
    decreases |ops|
  {
    ops != [] ==> Fair(m, ops[0]) && FairRun(MeterNext(m, ops[0]), ops[1..])
  }

  function Start(c: L.Coord): (m: Metered) {
    Metered(Init(c), 0)
  }

  // ---------------------------------------------------------------- the invariant

  /** The cursor is one of this Goal's own, not one carried over from the Goal before. */
  predicate OwnCursor(g: Goal) {
    g.continuation.Some? && g.continuation.value.identity.goalId == g.goalId
  }

  function CursorRevision(g: Goal): (r: nat)
    requires OwnCursor(g)
  {
    g.continuation.value.identity.usageLedgerRevision
  }

  /** A cursor is no newer than the account, and older than it once completion is asked for or reached. */
  predicate Dated(g: Goal) {
    OwnCursor(g) ==>
      && CursorRevision(g) <= g.usageLedgerRevision
      && (g.pendingComplete.Some? || g.status == Complete ==> CursorRevision(g) < g.usageLedgerRevision)
  }

  predicate GoalDated(g: Goal, ids: set<string>) {
    Dated(g) && D.CursorKnown(g, ids)
  }

  predicate TurnDated(s: State, began: nat) {
    s.turn.Some? && s.mem.Live? && OwnCursor(s.mem.goal) ==> CursorRevision(s.mem.goal) <= began
  }

  predicate MeterOk(m: Metered) {
    && (m.w.s.mem.Live? ==> GoalDated(m.w.s.mem.goal, m.w.h.ids))
    && (m.w.s.disk.Some? ==> GoalDated(m.w.s.disk.value, m.w.h.ids))
    && TurnDated(m.w.s, m.began)
  }

  // ---------------------------------------------------------------- one Goal to the next

  /** The cursor keeps its identity, the account does not shrink, and nothing asks for or reaches completion. */
  predicate Ages(g: Goal, n: Goal) {
    && n.goalId == g.goalId
    && n.usageLedgerRevision >= g.usageLedgerRevision
    && (n.continuation.Some? ==> g.continuation.Some? && n.continuation.value.identity == g.continuation.value.identity)
    && (n.pendingComplete.Some? ==> g.pendingComplete.Some?)
    && (n.status == Complete ==> g.status == Complete)
  }

  lemma AgesDated(g: Goal, n: Goal, ids: set<string>, more: set<string>)
    requires GoalDated(g, ids) && Ages(g, n) && ids <= more
    ensures GoalDated(n, more)
  {}

  lemma PlainAges(s: State, op: Op)
    requires Plain(op) && !op.TerminalOp? && !op.CompletionOp?
    ensures var n := Step(s, op).0; n.mem == s.mem || (!s.mem.Live? && !n.mem.Live?) || (s.mem.Live? && n.mem.Live? && Ages(s.mem.goal, n.mem.goal))
  {
    hide Step, BudgetRemains, Breaks;
    PlainQuiet(s, op);
  }

  lemma CallAges(s: State, op: Op)
    requires B.StateOk(s) && Billing(op)
    ensures var n := Step(s, op).0; n.mem == s.mem || (s.mem.Live? && n.mem.Live? && Ages(s.mem.goal, n.mem.goal))
  {
    hide Step, B.StateOk, C.OneMore;
    UsageAccounts(s, op);
    if op.CountOp? || op.AdmitOp? {
      C.CountsOne(s, op);
      if s.mem.Live? && Step(s, op).0.mem.Live? { Grown(s.mem.goal, Step(s, op).0.mem.goal, B.Of(s.ledger, s.mem.goal.goalId)); }
    } else { RevisionKept(s, op); }
  }

  lemma Grown(g: Goal, n: Goal, records: seq<Record>)
    ensures C.OneMore(g, n, records) ==> n.usageLedgerRevision >= g.usageLedgerRevision
  {}

  lemma RevisionKept(s: State, op: Op)
    requires op.RecordOp? || op.ReleaseOp? || op.AmbiguousOp?
    ensures var n := Step(s, op).0; s.mem.Live? && n.mem.Live? ==> n.mem.goal.usageLedgerRevision == s.mem.goal.usageLedgerRevision
  {
    hide Step;
    StepOf(s, op);
  }

  lemma RestoreAges(g: Goal, ledger: seq<Record>, loaded: Option<Loaded>, now: nat)
    requires B.Sound(g, ledger) && (loaded.Some? ==> loaded.value.records == ledger)
    ensures var mem := RestoreGoal(Some(g), loaded, now); if mem.Live? then Ages(g, mem.goal) else mem == Withheld(g)
  {
    hide Reconcile, ValidGoal, B.Sound, C.OneMore;
    ReconcileAccounts(g, loaded, now);
    C.ReconcileOneMore(g, ledger, loaded, now);
    Grown(g, Reconcile(g, loaded, now).goal, B.Of(ledger, g.goalId));
  }

  /** A terminal mints a cursor as old as the account, and completes only what asked for it. */
  lemma SettledDated(g: Goal, turn: TurnRuntime, e: TerminalEvent, c: L.Coord, enabled: bool, now: nat, ids: set<string>)
    requires g.revision < MAX_U64 && GoalDated(g, ids) && g.goalId in ids
    ensures var n := Settled(g, turn, e, c, enabled, now); n.Success? ==> GoalDated(n.value, ids)
  {
    hide AddMillis, ElapsedMillis, BudgetRemains, ValidContinuation, SteeringPending;
  }

  // ---------------------------------------------------------------- one step

  /** Every step but these four keeps the Goal, ages it, or removes it with its turn. */
  lemma MemAges(s: State, op: Op)
    requires B.StateOk(s) && !op.TerminalOp? && !op.CompletionOp? && !op.CreateOp? && !op.RestartOp?
    ensures var n := Step(s, op).0;
      n.mem == s.mem || (!s.mem.Live? && !n.mem.Live?) || (s.mem.Live? && n.mem.Live? && Ages(s.mem.goal, n.mem.goal)) || (n.mem == Empty && n.turn == None)
  {
    hide Step, B.StateOk, Ages, Clear, Moves, Permits;
    StepOf(s, op);
    if Plain(op) { PlainAges(s, op); }
    else if Billing(op) { CallAges(s, op); }
    else if op.ClearOp? {
      ClearShape(s, op);
      if s.mem.Live? && Step(s, op).0.mem.Live? { MovesAges(op, s.mem.goal, Step(s, op).0.mem.goal); }
    }
  }

  lemma MovesAges(op: Op, g: Goal, n: Goal)
    requires op.ClearOp?
    ensures Moves(g, n) && Permits(op, g, n) ==> Ages(g, n)
  {
    hide BudgetRemains;
  }

  lemma CompletionDated(s: State, op: Op, began: nat, ids: set<string>)
    requires op.CompletionOp? && TurnDated(s, began) && (s.mem.Live? ==> GoalDated(s.mem.goal, ids))
    requires s.turn.Some? && s.mem.Live? ==> s.mem.goal.usageLedgerRevision > began
    ensures var n := RequestCompletion(s, op.goalId, op.objectiveRevision, op.turnId, op.now, op.ok).0;
      (n.mem.Live? ==> GoalDated(n.mem.goal, ids)) && TurnDated(n, began) && n.turn == s.turn
  {}

  lemma TerminalDated(s: State, op: Op, began: nat, ids: set<string>)
    requires op.TerminalOp? && TurnDated(s, began) && (s.mem.Live? ==> GoalDated(s.mem.goal, ids) && s.mem.goal.goalId in ids)
    ensures var n := Terminal(s, op.event, op.enabled, op.now, op.w).0;
      (n.mem.Live? ==> GoalDated(n.mem.goal, ids)) && TurnDated(n, began) && (n.turn.Some? ==> s.turn.Some?)
  {
    hide EnqueueCursor, Settled, GoalDated;
    if s.mem.Live? && s.turn.Some? && s.mem.goal.revision < MAX_U64 {
      SettledDated(s.mem.goal, s.turn.value, op.event, s.coord, op.enabled, op.now, ids);
    }
  }

  lemma CreateDated(s: State, op: Op, ids: set<string>, more: set<string>)
    requires op.CreateOp? && op.id !in ids && ids <= more && (s.mem.Live? ==> GoalDated(s.mem.goal, ids))
    ensures var n := Step(s, op).0; (n.mem.Live? ==> GoalDated(n.mem.goal, more)) && n.turn == s.turn && (n.mem != s.mem ==> s.turn.None?)
  {
    hide Step;
    CreateShape(s, op);
    V.CreateCursor(s, op);
  }

  lemma MemDated(m: Metered, op: Op)
    requires MeterOk(m) && B.BooksOk(m.w) && Fair(m, op)
    ensures var n := MeterNext(m, op);
      (n.w.s.mem.Live? ==> GoalDated(n.w.s.mem.goal, n.w.h.ids)) && (m.w.s.turn.Some? && n.w.s.turn.Some? ==> TurnDated(n.w.s, m.began))
  {
    hide Step, B.StateOk, GoalDated, RestoreGoal, Logged, FreeTime, Terminal, RequestCompletion;
    var s, ids, n := m.w.s, m.w.h.ids, Next(m.w, op);
    StepOf(s, op);
    if op.TerminalOp? { TurnStepOf(s, op); TerminalDated(s, op, m.began, ids); WiderNow(n.s, ids, n.h.ids); }
    else if op.CompletionOp? { TurnStepOf(s, op); CompletionDated(s, op, m.began, ids); WiderNow(n.s, ids, n.h.ids); }
    else if op.CreateOp? { CreateDated(s, op, ids, n.h.ids); }
    else if op.RestartOp? { RestartDated(s, op, ids, n.h.ids); }
    else {
      MemAges(s, op);
      if s.mem.Live? && n.s.mem.Live? {
        Same(s.mem.goal);
        var g, h := s.mem.goal, n.s.mem.goal;
        assert Ages(g, h);
        AgesDated(g, h, ids, n.h.ids);
        AgedTurn(s, n.s, m.began);
      }
    }
  }

  lemma Same(g: Goal)
    ensures Ages(g, g)
  {}

  lemma AgedTurn(s: State, n: State, began: nat)
    requires s.mem.Live? && n.mem.Live? && Ages(s.mem.goal, n.mem.goal) && TurnDated(s, began)
    ensures s.turn.Some? && n.turn.Some? ==> TurnDated(n, began)
  {}

  lemma WiderNow(s: State, ids: set<string>, more: set<string>)
    requires s.mem.Live? ==> GoalDated(s.mem.goal, ids)
    requires ids <= more
    ensures s.mem.Live? ==> GoalDated(s.mem.goal, more)
  {}

  lemma RestartDated(s: State, op: Op, ids: set<string>, more: set<string>)
    requires op.RestartOp? && B.StateOk(s) && ids <= more && (s.disk.Some? ==> GoalDated(s.disk.value, ids))
    ensures var n := Restart(s, op.coord, op.load, op.now, op.ok).0; n.turn == None && (n.mem.Live? ==> GoalDated(n.mem.goal, more))
  {
    hide RestoreGoal, GoalDated, Ages, B.Sound;
    if s.disk.Some? {
      RestoreAges(s.disk.value, s.ledger, LoadLedger(s, op.load), op.now);
      var mem := RestoreGoal(s.disk, LoadLedger(s, op.load), op.now);
      if mem.Live? { AgesDated(s.disk.value, mem.goal, ids, more); }
    } else { V.RestoredNone(LoadLedger(s, op.load), op.now); }
  }

  lemma MeterKeeps(m: Metered, op: Op)
    requires MeterOk(m) && B.BooksOk(m.w) && Fair(m, op)
    ensures MeterOk(MeterNext(m, op)) && B.BooksOk(MeterNext(m, op).w)
  {
    hide Step, B.StateOk, B.Known, Dated, Logged, FreeTime, B.Written;
    var n := Next(m.w, op);
    B.NextKeeps(m.w, op);
    MemDated(m, op);
    B.DiskWritten(m.w.s, op);
    WrittenDated(m.w, op, n);
    if m.w.s.turn.None? && n.s.turn.Some? && n.s.mem.Live? { BegunDated(n.s, n.h.ids); }
  }

  lemma WrittenDated(w: World, op: Op, n: World)
    requires B.Written(w.s, op, n.s) && B.StateOk(w.s) && B.StateOk(n.s) && w.h.ids <= n.h.ids
    requires w.s.disk.Some? ==> GoalDated(w.s.disk.value, w.h.ids)
    requires w.s.mem.Live? ==> GoalDated(w.s.mem.goal, w.h.ids)
    requires n.s.mem.Live? ==> GoalDated(n.s.mem.goal, n.h.ids)
    ensures n.s.disk.Some? ==> GoalDated(n.s.disk.value, n.h.ids)
  {
    hide Dated, B.BothSound, B.CallsOk;
  }

  lemma BegunDated(s: State, ids: set<string>)
    requires s.mem.Live? && GoalDated(s.mem.goal, ids)
    ensures TurnDated(s, s.mem.goal.usageLedgerRevision)
  {}

  lemma {:induction false} MeterRunKeeps(m: Metered, ops: seq<Op>)
    requires MeterOk(m) && B.BooksOk(m.w) && FairRun(m, ops)
    ensures MeterOk(MeterRun(m, ops)) && B.BooksOk(MeterRun(m, ops).w)
    decreases |ops|
  {
    hide MeterOk, B.BooksOk, MeterNext, Fair;
    if ops != [] {
      MeterKeeps(m, ops[0]);
      MeterRunKeeps(MeterNext(m, ops[0]), ops[1..]);
    }
  }

  // ---------------------------------------------------------------- theorems

  lemma StartOk(c: L.Coord)
    ensures MeterOk(Start(c)) && B.BooksOk(Start(c).w)
  {
    B.InitBooks(c);
  }

  lemma StaleCursorInvalid(g: Goal)
    requires Dated(g) && g.status == Complete && g.continuation.Some?
    ensures !ValidGoal(g)
  {}

  lemma CompleteUnchanged(g: Goal, loaded: Option<Loaded>, now: nat)
    requires g.status == Complete && g.pendingUsage.None?
    ensures Reconcile(g, loaded, now).goal == g
  {
    hide Inspect;
  }

  /** A fair run is an allowed one, of the same world. */
  lemma {:induction false} MeterIsRun(m: Metered, ops: seq<Op>)
    requires FairRun(m, ops)
    ensures AllowedRun(m.w, ops) && MeterRun(m, ops).w == Run(m.w, ops)
    decreases |ops|
  {
    hide Next, Allowed;
    if ops != [] { MeterIsRun(MeterNext(m, ops[0]), ops[1..]); }
  }

  /** At the next start a completed Goal comes back as it was exactly when it has no cursor, and is withheld otherwise. */
  lemma CompletedRestoresExact(c: L.Coord, ops: seq<Op>, loaded: Option<Loaded>, now: nat)
    requires FairRun(Start(c), ops)
    requires var disk := MeterRun(Start(c), ops).w.s.disk; disk.Some? && disk.value.status == Complete
    ensures var disk := MeterRun(Start(c), ops).w.s.disk;
      RestoreGoal(disk, loaded, now) == if disk.value.continuation.None? then Live(disk.value) else Withheld(disk.value)
  {
    hide MeterRun, FairRun, Run, AllowedRun, Reconcile, ValidGoal, Dated, BoundCursor, B.Known, B.CallsOk, B.Balanced, B.Funded;
    StartOk(c);
    MeterRunKeeps(Start(c), ops);
    MeterIsRun(Start(c), ops);
    D.StoredGoalExact(c, ops);
    var g := MeterRun(Start(c), ops).w.s.disk.value;
    CompleteUnchanged(g, loaded, now);
    if g.continuation.Some? { StaleCursorInvalid(g); }
  }

  /** Reconciliation leaves the stored record of a Goal without a cursor, or of an unavailable one, as it is. */
  lemma ReconcileStores(s: State, op: Op)
    requires op.ReconcileOp? && B.Stored(s) && (s.mem.Live? ==> s.mem.goal.continuation.None?)
    ensures var n := ReconcileContinuation(s, op.found, op.disabled, op.now, op.w).0;
      n.disk == s.disk && Persisted(n.mem) == Persisted(s.mem) && n.mem.Live? == s.mem.Live?
  {
    hide Moves, Permits, ReconcileContinuation;
    ReconcileQuiet(s, op);
    if s.mem.Live? { NothingToReconcile(s, op); }
  }

  lemma NothingToReconcile(s: State, op: Op)
    requires op.ReconcileOp? && s.mem.Live? && s.mem.goal.continuation.None?
    ensures ReconcileContinuation(s, op.found, op.disabled, op.now, op.w).0 == s
  {}

  /**
   * No restart reopens a completed Goal: it comes back exactly as stored, or unavailable with its record kept, and the
   * reconciliation that follows leaves the record so, in memory and on disk.
   */
  lemma CompleteSurvivesRestart(c: L.Coord, ops: seq<Op>, restart: Op, reconcile: Op)
    requires FairRun(Start(c), ops) && restart.RestartOp? && reconcile.ReconcileOp?
    requires var disk := MeterRun(Start(c), ops).w.s.disk; disk.Some? && disk.value.status == Complete
    ensures var s := MeterRun(Start(c), ops).w.s;
      var s1 := Step(s, restart).0;
      var s2 := Step(s1, reconcile).0;
      && s1.disk == s.disk && s2.disk == s.disk
      && Persisted(s1.mem) == s.disk && Persisted(s2.mem) == s.disk
      && (s1.mem.Live? <==> s.disk.value.continuation.None?) && (s2.mem.Live? <==> s1.mem.Live?)
  {
    hide MeterRun, FairRun, Step, RestoreGoal, B.CallsOk, B.BothSound, ReconcileContinuation;
    CompletedRestoresExact(c, ops, LoadLedger(MeterRun(Start(c), ops).w.s, restart.load), restart.now);
    var s := MeterRun(Start(c), ops).w.s;
    StepOf(s, restart);
    TurnStepOf(Step(s, restart).0, reconcile);
    ReconcileStores(Step(s, restart).0, reconcile);
  }
}
