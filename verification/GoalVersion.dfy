/** The revision as a version of the Goal, and what a continuation may be admitted on. */
module GoalVersion {
  import opened Basics
  import opened RuntimeTypes
  import opened GoalTypes
  import opened GoalUsage
  import opened GoalMachine
  import opened GoalRuns
  import opened GoalSteps
  import B = GoalBooks
  import T = GoalTime
  import L = InputLedger

  function Key(g: Goal): (r: (string, nat)) {
    (g.goalId, g.revision)
  }

  /** Memory holds what is on disk, or a strictly later revision of it. */
  predicate Ahead(s: State) {
    s.mem.Live? ==>
      && s.disk.Some? && s.disk.value.goalId == s.mem.goal.goalId
      && (s.disk.value == s.mem.goal || s.disk.value.revision < s.mem.goal.revision)
  }

  /** Each key names one written Goal, and the Goal on disk is the latest of its identity. */
  predicate Latest(disk: Option<Goal>, saved: map<(string, nat), Goal>, ids: set<string>) {
    && (forall k :: k in saved ==> Key(saved[k]) == k && k.0 in ids)
    && (disk.Some? ==> Key(disk.value) in saved && saved[Key(disk.value)] == disk.value)
    && (disk.Some? ==> forall k :: k in saved && k.0 == disk.value.goalId ==> k.1 <= disk.value.revision)
  }

  /** Each cursor names the Goal its terminal wrote. */
  predicate MintedOk(minted: map<CursorIdentity, Goal>, saved: map<(string, nat), Goal>) {
    forall c :: c in minted ==> (c.goalId, c.goalRevision) in saved && saved[(c.goalId, c.goalRevision)] == minted[c]
  }

  predicate CursorMinted(g: Goal, minted: map<CursorIdentity, Goal>) {
    PendingCursor(g.continuation) ==> g.continuation.value.identity in minted && g.continuation.value.identity.goalId == g.goalId
  }

  predicate CursorsOk(s: State, minted: map<CursorIdentity, Goal>) {
    && (s.mem.Live? ==> CursorMinted(s.mem.goal, minted))
    && (s.disk.Some? ==> CursorMinted(s.disk.value, minted))
    && (s.mem.Live? && s.turn.Some? ==> !PendingCursor(s.mem.goal.continuation))
  }

  predicate VersionOk(w: World) {
    && Ahead(w.s)
    && Latest(w.s.disk, w.h.saved, w.h.ids)
    && MintedOk(w.h.minted, w.h.saved)
    && CursorsOk(w.s, w.h.minted)
  }

  // ---------------------------------------------------------------- one step

  /** The Goal stays; or memory and disk now hold the old one of memory, or a later one. */
  predicate Advances(s: State, n: State) {
    || (n.mem == s.mem && n.disk == s.disk)
    || (n.mem.Unavailable? && n.disk == s.disk)
    || (s.mem.Live? && n.mem.Live? && n.disk == Some(n.mem.goal) && n.mem.goal.goalId == s.mem.goal.goalId &&
        (n.mem == s.mem || n.mem.goal.revision > s.mem.goal.revision))
  }

  predicate Steady(op: Op) {
    Plain(op) || Billing(op) || op.CheckpointOp?
  }

  lemma SteadyAdvances(s: State, op: Op)
    requires Steady(op) && B.Stored(s)
    ensures Advances(s, Step(s, op).0)
  {
    hide Step, Permits, KeepsRequest, KeepsBlame;
    StepOf(s, op);
    if Plain(op) { PlainQuiet(s, op); } else if Billing(op) { UsageAccounts(s, op); }
  }

  /** A new or unchanged disk keeps the table of written Goals. */
  lemma LatestKept(disk: Option<Goal>, saved: map<(string, nat), Goal>, ids: set<string>, g: Goal, more: set<string>)
    requires Latest(disk, saved, ids) && ids <= more && g.goalId in more
    requires disk == Some(g) || forall k :: k in saved && k.0 == g.goalId ==> k.1 < g.revision
    ensures Latest(Some(g), saved[Key(g) := g], more)
    ensures forall k :: k in saved ==> saved[Key(g) := g][k] == saved[k]
  {}

  lemma NoDiskKept(disk: Option<Goal>, saved: map<(string, nat), Goal>, ids: set<string>, more: set<string>)
    requires Latest(disk, saved, ids) && ids <= more
    ensures Latest(None, saved, more)
  {}

  /** The disk after a step is a later revision of the old one, a fresh Goal, or none. */
  predicate Fresher(s: State, n: State, ids: set<string>) {
    n.disk.Some? ==>
      || n.disk == s.disk
      || (n.disk.value.goalId !in ids)
      || (s.disk.Some? && n.disk.value.goalId == s.disk.value.goalId && n.disk.value.revision > s.disk.value.revision)
  }

  predicate SavedKept(h: History, n: History) {
    forall k :: k in h.saved ==> k in n.saved && n.saved[k] == h.saved[k]
  }

  lemma SavedNext(w: World, op: Op)
    requires Latest(w.s.disk, w.h.saved, w.h.ids) && Fresher(w.s, Step(w.s, op).0, w.h.ids)
    requires B.Known(Step(w.s, op).0, Next(w, op).h.ids)
    ensures Latest(Next(w, op).s.disk, Next(w, op).h.saved, Next(w, op).h.ids)
    ensures SavedKept(w.h, Next(w, op).h)
  {
    hide Step, Logged, FreeTime, Latest;
    var n := Next(w, op);
    if n.s.disk.Some? {
      IdsOf(w);
      LatestKept(w.s.disk, w.h.saved, w.h.ids, n.s.disk.value, n.h.ids);
    } else { NoDiskKept(w.s.disk, w.h.saved, w.h.ids, n.h.ids); }
  }

  lemma IdsOf(w: World)
    requires Latest(w.s.disk, w.h.saved, w.h.ids)
    ensures forall k :: k in w.h.saved ==> k.0 in w.h.ids
    ensures w.s.disk.Some? ==> forall k :: k in w.h.saved && k.0 == w.s.disk.value.goalId ==> k.1 <= w.s.disk.value.revision
  {}

  lemma RestoredAhead(disk: Goal, loaded: Option<Loaded>, now: nat)
    ensures var mem := RestoreGoal(Some(disk), loaded, now);
      mem.Live? ==> mem.goal.goalId == disk.goalId && (mem.goal == disk || mem.goal.revision > disk.revision) && mem.goal.continuation == disk.continuation
  {
    hide Reconcile, ValidGoal, KeepsRequest, KeepsBlame;
    ReconcileAccounts(disk, loaded, now);
  }

  lemma StateNext(s: State, op: Op, ids: set<string>)
    requires Ahead(s) && B.Stored(s) && B.Known(s, ids) && (op.CreateOp? ==> op.id !in ids)
    ensures var n := Step(s, op).0; Ahead(n) && Fresher(s, n, ids)
  {
    hide Step, RestoreGoal, Permits, Clear;
    StepOf(s, op);
    if Steady(op) { SteadyAdvances(s, op); }
    else if op.CreateOp? { CreateShape(s, op); }
    else if op.ClearOp? { ClearShape(s, op); }
    else if s.disk.Some? { RestoredAhead(s.disk.value, LoadLedger(s, op.load), op.now); RestoredRaw(s.disk.value, LoadLedger(s, op.load), op.now); }
    else { RestoredNone(LoadLedger(s, op.load), op.now); }
  }

  lemma RestoredRaw(disk: Goal, loaded: Option<Loaded>, now: nat)
    ensures var mem := RestoreGoal(Some(disk), loaded, now); !mem.Live? ==> mem == Withheld(disk)
  {}

  lemma RestoredNone(loaded: Option<Loaded>, now: nat)
    ensures RestoreGoal(None, loaded, now) == Empty
  {}

  // ---------------------------------------------------------------- cursors

  /** A terminal that leaves a pending cursor minted it for the revision it wrote. */
  lemma SettledMints(g: Goal, turn: TurnRuntime, e: TerminalEvent, c: L.Coord, enabled: bool, now: nat)
    requires g.revision < MAX_U64 && !PendingCursor(g.continuation)
    ensures var n := Settled(g, turn, e, c, enabled, now);
      n.Success? && PendingCursor(n.value.continuation) ==>
        n.value.continuation.value.identity.goalId == n.value.goalId && n.value.continuation.value.identity.goalRevision == n.value.revision
  {
    hide Completes, ValidContinuation, BudgetRemains, AddMillis, ElapsedMillis;
  }

  lemma TerminalMints(s: State, op: Op)
    requires op.TerminalOp? && (s.mem.Live? && s.turn.Some? ==> !PendingCursor(s.mem.goal.continuation))
    ensures var (n, reply) := Terminal(s, op.event, op.enabled, op.now, op.w);
      && (reply != Done ==> n == s)
      && (reply == Done ==> n.mem.Live? && n.turn.None? && n.disk == Some(n.mem.goal))
      && (reply == Done && PendingCursor(n.mem.goal.continuation) ==>
            n.mem.goal.continuation.value.identity.goalId == n.mem.goal.goalId && n.mem.goal.continuation.value.identity.goalRevision == n.mem.goal.revision)
  {
    hide EnqueueCursor, Settled;
    if s.mem.Live? && s.turn.Some? && s.mem.goal.revision < MAX_U64 {
      SettledMints(s.mem.goal, s.turn.value, op.event, s.coord, op.enabled, op.now);
    }
  }

  /** Except at a terminal, no cursor becomes pending in memory or on disk, and none is pending when a turn starts. */
  predicate NoneMinted(s: State, n: State) {
    && (n.mem.Live? ==> (s.mem.Live? && s.mem.goal.goalId == n.mem.goal.goalId && KeepsCursor(s.mem.goal, n.mem.goal.continuation)) ||
                        (s.disk.Some? && s.disk.value.goalId == n.mem.goal.goalId && KeepsCursor(s.disk.value, n.mem.goal.continuation)) ||
                        !PendingCursor(n.mem.goal.continuation))
    && (n.disk == s.disk || (n.mem.Live? && n.disk == Some(n.mem.goal)) || n.disk == None)
    && (n.mem.Live? && n.turn.Some? && s.turn.Some? ==> s.mem.Live? && KeepsCursor(s.mem.goal, n.mem.goal.continuation))
    && (n.mem.Live? && n.turn.Some? && s.turn.None? ==> !PendingCursor(n.mem.goal.continuation))
  }

  lemma SteadyMintsNone(s: State, op: Op)
    requires Steady(op) && !op.TerminalOp? && T.Turned(s.turn) && B.Stored(s)
    ensures NoneMinted(s, Step(s, op).0)
  {
    hide Step, KeepsRequest, KeepsBlame, Breaks, BudgetRemains, T.SameRoot, T.Stopped, PendingCursor;
    StepOf(s, op);
    if Plain(op) { PlainQuiet(s, op); T.PlainTicks(s, op); if s.mem.Live? { MovesName(s.mem.goal, Step(s, op).0.mem); } } else if Billing(op) { UsageAccounts(s, op); }
  }

  lemma MovesName(g: Goal, mem: Slot)
    ensures mem.Live? && Moves(g, mem.goal) ==> mem.goal.goalId == g.goalId
  {}

  lemma RestartMintsNone(s: State, op: Op)
    requires op.RestartOp? && B.Stored(s)
    ensures NoneMinted(s, Step(s, op).0)
  {
    hide Step, RestoreGoal, Retire, BudgetRemains, LoadLedger;
    StepOf(s, op);
    var loaded := LoadLedger(s, op.load);
    if s.disk.Some? { RestoredAhead(s.disk.value, loaded, op.now); RestoredRaw(s.disk.value, loaded, op.now); } else { RestoredNone(loaded, op.now); }
  }

  lemma OthersMintNone(s: State, op: Op)
    requires (op.CreateOp? || op.ClearOp? || op.RestartOp?) && B.Stored(s)
    ensures NoneMinted(s, Step(s, op).0)
  {
    hide Step, RestoreGoal, Retire, BudgetRemains;
    if op.RestartOp? { RestartMintsNone(s, op); }
    else {
      StepOf(s, op);
      if op.CreateOp? { CreateShape(s, op); CreateCursor(s, op); }
    }
  }

  lemma CreateCursor(s: State, op: Op)
    requires op.CreateOp?
    ensures var n := Step(s, op).0;
      n.mem != s.mem && n.mem.Live? ==>
        && !PendingCursor(n.mem.goal.continuation)
        && (n.mem.goal.continuation.Some? ==>
              s.mem.Live? && s.mem.goal.continuation.Some? && n.mem.goal.continuation.value.identity == s.mem.goal.continuation.value.identity)
  {
    hide Retire, BeginTurn, RequestCompletion, ReportBlocker, OpenWait, CloseWait, Terminal, CancelPause, ReconcileContinuation,
      Admit, RecordUsage, CountUsage, ReleaseCall, MarkAmbiguous, Restart, Clear;
  }

  lemma CursorsKept(s: State, n: State, minted: map<CursorIdentity, Goal>)
    requires CursorsOk(s, minted) && NoneMinted(s, n)
    ensures CursorsOk(n, minted)
  {
    hide PendingCursor;
  }

  lemma CursorsNext(w: World, op: Op)
    requires VersionOk(w) && T.Turned(w.s.turn) && B.Stored(w.s) && SavedKept(w.h, Next(w, op).h)
    requires Next(w, op).s.disk.Some? ==> Key(Next(w, op).s.disk.value) in Next(w, op).h.saved && Next(w, op).h.saved[Key(Next(w, op).s.disk.value)] == Next(w, op).s.disk.value
    ensures CursorsOk(Next(w, op).s, Next(w, op).h.minted) && MintedOk(Next(w, op).h.minted, Next(w, op).h.saved)
  {
    hide Step, Logged, FreeTime, NoneMinted, Latest, Ahead, Terminal;
    var n := Next(w, op);
    if op.TerminalOp? {
      TurnStepOf(w.s, op);
      TerminalMints(w.s, op);
    } else {
      if Steady(op) { SteadyMintsNone(w.s, op); } else { OthersMintNone(w.s, op); }
      CursorsKept(w.s, n.s, w.h.minted);
    }
  }

  predicate AllOk(w: World) {
    VersionOk(w) && B.BooksOk(w) && T.TimeOk(w)
  }

  lemma TimeNext(w: World, op: Op)
    requires T.TimeOk(w) && Allowed(w, op)
    ensures T.TimeOk(Next(w, op))
  {
    hide T.TimeOk, Next, Allowed;
    if op.CreateOp? || op.RestartOp? { T.OtherNext(w, op); } else { T.LiveNext(w, op); }
  }

  lemma VersionNext(w: World, op: Op)
    requires AllOk(w) && Allowed(w, op)
    ensures AllOk(Next(w, op)) && SavedKept(w.h, Next(w, op).h)
  {
    hide Step, Logged, FreeTime, Fresher, SavedKept, Latest, MintedOk, CursorsOk, Ahead, B.BothSound, B.CallsOk, T.Running, T.DiskWithin;
    B.NextKeeps(w, op);
    TimeNext(w, op);
    StateNext(w.s, op, w.h.ids);
    SavedNext(w, op);
    DiskSaved(Next(w, op));
    CursorsNext(w, op);
  }

  lemma DiskSaved(w: World)
    requires Latest(w.s.disk, w.h.saved, w.h.ids)
    ensures w.s.disk.Some? ==> Key(w.s.disk.value) in w.h.saved && w.h.saved[Key(w.s.disk.value)] == w.s.disk.value
  {}

  lemma InitOk(c: L.Coord)
    ensures AllOk(Init(c))
  {
    B.InitBooks(c);
  }

  lemma {:induction false} VersionRun(w: World, ops: seq<Op>)
    requires AllOk(w) && AllowedRun(w, ops)
    ensures AllOk(Run(w, ops)) && SavedKept(w.h, Run(w, ops).h)
    decreases |ops|
  {
    hide AllOk, Next, Allowed;
    if ops != [] {
      VersionNext(w, ops[0]);
      VersionRun(Next(w, ops[0]), ops[1..]);
    }
  }

  // ---------------------------------------------------------------- theorems

  /** Within a session every change of the Goal raises its revision. */
  lemma ChangeRaises(c: L.Coord, ops: seq<Op>, op: Op)
    requires AllowedRun(Init(c), ops) && !op.CreateOp? && !op.RestartOp?
    ensures var s, n := Run(Init(c), ops).s, Step(Run(Init(c), ops).s, op).0;
      n.mem.Live? && n.mem != s.mem ==> s.mem.Live? && n.mem.goal.goalId == s.mem.goal.goalId && n.mem.goal.revision > s.mem.goal.revision
  {
    hide Run, AllowedRun, Step, Permits, Clear, VersionOk, T.TimeOk, B.Known, B.BothSound, B.CallsOk;
    InitOk(c);
    VersionRun(Init(c), ops);
    var s := Run(Init(c), ops).s;
    StepOf(s, op);
    if Steady(op) { SteadyAdvances(s, op); } else { ClearShape(s, op); }
  }

  /** A written Goal is never written over: one identity and revision mean one state, at any two moments of a run. */
  lemma RevisionIsVersion(c: L.Coord, ops: seq<Op>, more: seq<Op>)
    requires AllowedRun(Init(c), ops) && AllowedRun(Run(Init(c), ops), more)
    ensures var w := Run(Init(c), ops);
      forall k :: k in w.h.saved ==> k in Run(w, more).h.saved && Run(w, more).h.saved[k] == w.h.saved[k]
  {
    hide Run, AllowedRun, AllOk;
    InitOk(c);
    VersionRun(Init(c), ops);
    VersionRun(Run(Init(c), ops), more);
  }

  /**
   * For the Goal in memory the revision names a written state exactly when memory agrees with the disk, and then it names
   * this very state.
   */
  lemma MemoryVersion(c: L.Coord, ops: seq<Op>)
    requires AllowedRun(Init(c), ops)
    ensures var w := Run(Init(c), ops);
      w.s.mem.Live? ==>
        && (Key(w.s.mem.goal) in w.h.saved <==> w.s.disk == Some(w.s.mem.goal))
        && (Key(w.s.mem.goal) in w.h.saved ==> w.h.saved[Key(w.s.mem.goal)] == w.s.mem.goal)
  {
    hide Run, AllowedRun, T.TimeOk, B.BooksOk, CursorsOk, MintedOk;
    InitOk(c);
    VersionRun(Init(c), ops);
  }

  predicate Admits(s: State, n: State) {
    && s.mem.Live? && n.mem.Live? && n.mem != s.mem
    && n.mem.goal.continuation.Some? && n.mem.goal.continuation.value.disposition == CursorAdmitting
    && s.mem.goal.continuation != n.mem.goal.continuation
  }

  lemma AdmissionGuards(s: State, g: Goal, turnId: TurnId, item: L.Item, now: nat, w: Writes)
    requires s.mem == Live(g) && Admits(s, BeginContinuation(s, g, turnId, item, now, w).0)
    ensures PendingCursor(g.continuation)
    ensures var c := g.continuation.value; g.revision == c.identity.goalRevision && g.goalId == c.identity.goalId && item.id == ItemOf(c.identity)
    ensures L.AdmissionItem(s.coord, item.id, s.coord.scope).Success?
  {
    hide Retire, L.AdmissionItem;
  }

  lemma BeginAdmits(s: State, op: Op)
    requires op.BeginOp? && Admits(s, BeginTurn(s, op.turnId, op.steering, op.item, op.boundary, op.now, op.w).0)
    ensures op.item.Some? && Admits(s, BeginContinuation(s, s.mem.goal, op.turnId, op.item.value, op.now, op.w).0)
  {
    hide Retire, BeginContinuation;
  }

  lemma OnlyBeginAdmits(s: State, op: Op)
    requires Admits(s, Step(s, op).0) && !op.CreateOp? && !op.RestartOp?
    ensures op.BeginOp?
  {
    hide Step, KeepsRequest, KeepsBlame, BudgetRemains, Clear;
    StepOf(s, op);
    if Plain(op) { PlainQuiet(s, op); } else if Billing(op) { UsageAccounts(s, op); } else if op.ClearOp? { ClearShape(s, op); }
  }

  lemma NothingExplicit(c: L.Coord, id: ItemId)
    requires L.AdmissionItem(c, id, c.scope).Success?
    ensures forall i :: 0 <= i < |c.items| ==> !L.ExplicitInput(c.items[i], c.scope)
  {}

  /**
   * A continuation is newly admitted only on exactly the Goal its minting terminal wrote, and only when no user prompt or
   * steering item is pending in scope, wherever it sits in the queue.
   */
  lemma ContinuationAdmission(c: L.Coord, ops: seq<Op>, op: Op)
    requires AllowedRun(Init(c), ops) && Admits(Run(Init(c), ops).s, Step(Run(Init(c), ops).s, op).0) && !op.CreateOp? && !op.RestartOp?
    ensures var w := Run(Init(c), ops);
      && op.BeginOp? && PendingCursor(w.s.mem.goal.continuation)
      && var identity := w.s.mem.goal.continuation.value.identity;
      && identity in w.h.minted && w.h.minted[identity] == w.s.mem.goal
      && forall i :: 0 <= i < |w.s.coord.items| ==> !L.ExplicitInput(w.s.coord.items[i], w.s.coord.scope)
  {
    hide Run, AllowedRun, Step, BeginTurn, BeginContinuation, L.AdmissionItem, Admits, T.TimeOk, B.BooksOk, L.ExplicitInput;
    InitOk(c);
    VersionRun(Init(c), ops);
    var w := Run(Init(c), ops);
    OnlyBeginAdmits(w.s, op);
    TurnStepOf(w.s, op);
    LiveBefore(w.s, Step(w.s, op).0);
    BeginAdmits(w.s, op);
    AdmissionGuards(w.s, w.s.mem.goal, op.turnId, op.item.value, op.now, op.w);
    NothingExplicit(w.s.coord, op.item.value.id);
  }

  lemma LiveBefore(s: State, n: State)
    requires Admits(s, n)
    ensures s.mem.Live?
  {}

  /**
   * Memory alone is not versioned: two restarts whose checkpoints both fail leave two different Goals in memory under one
   * identity and revision.
   */
  lemma UnwrittenRevisionRepeats(c: L.Coord)
    ensures var w := Writes(true, true, true, true, true);
      var create := CreateOp(Control(NO_TURN, NO_TURN, false), "goal", "objective", None, 1, w);
      var first := [create, RestartOp(c, Readable(false), 2, false)];
      var second := [create, RestartOp(c, Readable(false), 2, false), RestartOp(c, Readable(false), 3, false)];
      && AllowedRun(Init(c), second)
      && var a, b := Run(Init(c), first).s.mem, Run(Init(c), second).s.mem;
      && a.Live? && b.Live? && Key(a.goal) == Key(b.goal) && a.goal != b.goal
  {
    hide Next, Allowed;
    var w := Writes(true, true, true, true, true);
    var create := CreateOp(Control(NO_TURN, NO_TURN, false), "goal", "objective", None, 1, w);
    var one, two := RestartOp(c, Readable(false), 2, false), RestartOp(c, Readable(false), 3, false);
    var w0 := Init(c);
    var w1 := Next(w0, create);
    var w2 := Next(w1, one);
    var w3 := Next(w2, two);
    assert Run(w3, []) == w3 && Run(w2, []) == w2;
    assert [two][1..] == [] && [one, two][1..] == [two] && [create, one, two][1..] == [one, two];
    assert [one][1..] == [] && [create, one][1..] == [one];
    assert Run(w2, [two]) == w3;
    assert Run(w1, [one, two]) == w3;
    assert Run(w1, [one]) == w2;
    FirstWorld(c, create);
    LaterWorld(w1, one);
    LaterWorld(w2, two);
    assert AllowedRun(w3, []) && AllowedRun(w2, [two]) && AllowedRun(w1, [one, two]);
  }

  const OBJECTIVE := "objective"

  function Sample(): (g: Goal) {
    Goal("goal", OBJECTIVE, 1, Active, "", 1, None, 0, 0, 0, 0, None, NO_TURN, 0, None, None, "", [], 1, 1)
  }

  lemma FirstWorld(c: L.Coord, create: Op)
    requires create == CreateOp(Control(NO_TURN, NO_TURN, false), "goal", OBJECTIVE, None, 1, Writes(true, true, true, true, true))
    ensures Allowed(Init(c), create) && Next(Init(c), create).s.disk == Some(Sample()) && Next(Init(c), create).s.ledger == []
    ensures Next(Init(c), create).h.clock == 1
  {
    hide Retire, BeginTurn, RequestCompletion, ReportBlocker, OpenWait, CloseWait, Terminal, CancelPause, ReconcileContinuation,
      Admit, RecordUsage, CountUsage, ReleaseCall, MarkAmbiguous, Restart, Clear, Logged, FreeTime;
  }

  lemma LaterWorld(w: World, op: Op)
    requires w.s.disk == Some(Sample()) && w.s.ledger == [] && op.RestartOp? && !op.ok && op.load == Readable(false) && op.now > w.h.clock
    ensures Allowed(w, op) && Next(w, op).s.disk == Some(Sample()) && Next(w, op).s.ledger == [] && Next(w, op).h.clock == op.now
    ensures Next(w, op).s.mem == Live(Restatus(Sample(), Paused, COLD).(revision := 2, updatedAt := op.now))
  {
    hide Step, Logged, FreeTime;
    StepOf(w.s, op);
    assert Collect(Sample(), [], 0, map[]) == Success(map[]);
    assert CommittedIn(map[], 0) == {};
  }
}
