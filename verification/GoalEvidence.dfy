/** Blockers and completion: what the evidence in a Goal rests on. */
module GoalEvidence {
  import opened Basics
  import opened RuntimeTypes
  import opened GoalTypes
  import opened GoalUsage
  import opened GoalMachine
  import opened GoalRuns
  import opened GoalSteps
  import B = GoalBooks
  import L = InputLedger

  /** The turns that reported `key` since the last break or report of another key. */
  function TurnsSince(log: seq<Event>, key: string): (r: set<TurnId>) {
    if log == [] then {}
    else
      var last := log[|log| - 1];
      if last.Report? && last.key == key then TurnsSince(log[..|log| - 1], key) + {last.turnId} else {}
  }

  predicate Distinct(turns: seq<TurnId>) {
    forall i, j :: 0 <= i < j < |turns| ==> turns[i] != turns[j]
  }

  /** Distinct turns, at most three, none exactly when there is no key, and never three while active. */
  predicate BlameOk(g: Goal) {
    && |g.blockerTurns| <= BLOCKER_TURNS
    && Distinct(g.blockerTurns)
    && NO_TURN !in g.blockerTurns
    && (g.blockerKey == "" <==> g.blockerTurns == [])
    && (g.status == Active ==> |g.blockerTurns| < BLOCKER_TURNS)
  }

  predicate BlameSince(g: Goal, log: seq<Event>) {
    forall i :: 0 <= i < |g.blockerTurns| ==> g.blockerTurns[i] in TurnsSince(log, g.blockerKey)
  }

  /** A completion request was committed by the turn it names, for the current objective revision. */
  predicate RequestOk(g: Goal, requests: set<(string, nat, TurnId)>) {
    g.pendingComplete.Some? ==>
      && g.pendingComplete.value.objectiveRevision == g.objectiveRevision
      && (g.goalId, g.objectiveRevision, g.pendingComplete.value.turnId) in requests
  }

  predicate Evident(g: Goal, log: seq<Event>, requests: set<(string, nat, TurnId)>) {
    BlameOk(g) && BlameSince(g, log) && RequestOk(g, requests)
  }

  predicate EvidenceOk(w: World) {
    && (Persisted(w.s.mem).Some? ==> Evident(Persisted(w.s.mem).value, w.h.log, w.h.requests))
    && (w.s.disk.Some? ==> Evident(w.s.disk.value, w.h.diskLog, w.h.requests))
  }

  // ---------------------------------------------------------------- one Goal to the next

  lemma KeepsEvident(g: Goal, n: Goal, log: seq<Event>, requests: set<(string, nat, TurnId)>)
    requires Evident(g, log, requests) && KeepsRequest(g, n) && KeepsBlame(g, n) && n.goalId == g.goalId
    ensures Evident(n, log, requests)
    ensures Unblamed(n) ==> Evident(n, log + [Break], requests)
  {
    hide TurnsSince;
  }

  lemma MoreRequests(g: Goal, log: seq<Event>, requests: set<(string, nat, TurnId)>, more: set<(string, nat, TurnId)>)
    requires Evident(g, log, requests) && requests <= more
    ensures Evident(g, log, more)
  {
    hide TurnsSince;
  }

  /** One report: the turn joins the others, and at three the Goal blocks. */
  lemma ReportEvident(s: State, op: Op, log: seq<Event>, requests: set<(string, nat, TurnId)>)
    requires op.BlockerOp? && s.mem.Live? && Evident(s.mem.goal, log, requests)
    ensures var (n, reply) := ReportBlocker(s, op.goalId, op.objectiveRevision, op.turnId, op.key, op.reason, op.now, op.ok);
      if reply == Done then n.mem.Live? && n.mem.goal.goalId == s.mem.goal.goalId && Evident(n.mem.goal, log + [Report(op.turnId, op.key)], requests) && n.mem != s.mem
      else n.mem == s.mem && n.disk == s.disk
  {
    hide TurnsSince, BlockerTurnsWith, AddMillis, ElapsedMillis;
    var g := s.mem.goal;
    if Evidence(s, op.goalId, op.objectiveRevision, op.turnId).Success? && op.key != "" {
      TurnsKept(g, log, op.turnId, op.key);
    }
  }

  lemma TurnsKept(g: Goal, log: seq<Event>, turnId: TurnId, key: string)
    requires BlameOk(g) && BlameSince(g, log) && g.status == Active && turnId != NO_TURN && key != ""
    ensures var turns := BlockerTurnsWith(g, key, turnId);
      && 0 < |turns| <= BLOCKER_TURNS && Distinct(turns) && NO_TURN !in turns
      && (forall i :: 0 <= i < |turns| ==> turns[i] in TurnsSince(log + [Report(turnId, key)], key))
      && (var known := if g.blockerKey == key then g.blockerTurns else [];
          |turns| == BLOCKER_TURNS ==> turnId !in known && |known| + 1 >= BLOCKER_TURNS)
  {
    var entry := Report(turnId, key);
    assert (log + [entry])[..|log|] == log;
    assert TurnsSince(log + [entry], key) == TurnsSince(log, key) + {turnId};
  }

  lemma RequestEvident(s: State, op: Op, log: seq<Event>, requests: set<(string, nat, TurnId)>)
    requires op.CompletionOp? && s.mem.Live? && Evident(s.mem.goal, log, requests)
    ensures var (n, reply) := RequestCompletion(s, op.goalId, op.objectiveRevision, op.turnId, op.now, op.ok);
      if reply == Done then n.mem.Live? && n.mem.goal.goalId == s.mem.goal.goalId && Evident(n.mem.goal, log, requests + {(op.goalId, op.objectiveRevision, op.turnId)})
      else n.mem == s.mem && n.disk == s.disk
  {
    hide TurnsSince;
  }

  lemma RestoreEvident(disk: Option<Goal>, loaded: Option<Loaded>, now: nat, log: seq<Event>, requests: set<(string, nat, TurnId)>)
    requires disk.Some? ==> Evident(disk.value, log, requests)
    ensures var mem := RestoreGoal(disk, loaded, now); Persisted(mem).Some? ==> Evident(Persisted(mem).value, log, requests)
  {
    hide Reconcile, ValidGoal, Evident;
    if disk.Some? {
      ReconcileAccounts(disk.value, loaded, now);
      var g := Reconcile(disk.value, loaded, now).goal;
      if g != disk.value { KeepsEvident(disk.value, g, log, requests); }
      KeepsEvident(g, Forget(Restatus(g, Paused, COLD).(revision := g.revision + 1, updatedAt := now)), log, requests);
    }
  }

  lemma PlainEvident(w: World, op: Op)
    requires EvidenceOk(w) && Plain(op)
    ensures var n := Next(w, op); Persisted(n.s.mem).Some? ==> Evident(Persisted(n.s.mem).value, n.h.log, n.h.requests)
  {
    hide Step, Evident, Moves, FreeTime, TurnsSince, Unblamed;
    var n := Next(w, op);
    PlainQuiet(w.s, op);
    TurnStepOf(w.s, op);
    if n.s.mem == w.s.mem {
      if n.s.mem.Live? { KeepMem(w, op); }
      if n.s.mem.Unavailable? { MoreRequests(n.s.mem.raw, w.h.log, w.h.requests, n.h.requests); }
    } else if n.s.mem.Unavailable? { MoreRequests(n.s.mem.raw, w.h.log, w.h.requests, n.h.requests); }
    else {
      var g, m := w.s.mem.goal, n.s.mem.goal;
      assert m.goalId == g.goalId by { MovesId(g, m); }
      if op.BlockerOp? { ReportEvident(w.s, op, w.h.log, w.h.requests); }
      else if op.CompletionOp? { RequestEvident(w.s, op, w.h.log, w.h.requests); }
      else { KeepsEvident(g, m, w.h.log, w.h.requests); }
    }
  }

  lemma MovesId(g: Goal, n: Goal)
    requires Moves(g, n)
    ensures n.goalId == g.goalId
  {}

  lemma KeepMem(w: World, op: Op)
    requires EvidenceOk(w) && w.s.mem.Live?
    ensures Evident(w.s.mem.goal, w.h.log, Next(w, op).h.requests)
  {
    hide Step, Evident, FreeTime, Logged;
    MoreRequests(w.s.mem.goal, w.h.log, w.h.requests, Next(w, op).h.requests);
  }

  lemma OtherEvident(w: World, op: Op)
    requires EvidenceOk(w) && !Plain(op)
    ensures var n := Next(w, op); Persisted(n.s.mem).Some? ==> Evident(Persisted(n.s.mem).value, n.h.log, n.h.requests)
  {
    hide Step, Evident, Moves, FreeTime, TurnsSince, Reconcile, ValidGoal, Clear;
    var n := Next(w, op);
    StepOf(w.s, op);
    if op.RestartOp? { RestoreEvident(w.s.disk, LoadLedger(w.s, op.load), op.now, w.h.diskLog, w.h.requests); }
    else if op.CreateOp? {
      CreateShape(w.s, op);
      if n.s.mem != w.s.mem { FreshEvident(n.s.mem.goal, n.h.log, n.h.requests); }
    } else {
      if Billing(op) { UsageAccounts(w.s, op); } else if op.ClearOp? { ClearShape(w.s, op); }
      if n.s.mem != w.s.mem && n.s.mem.Live? {
        var g, m := w.s.mem.goal, n.s.mem.goal;
        assert m.goalId == g.goalId by { if op.ClearOp? { MovesId(g, m); } }
        KeepsEvident(g, m, w.h.log, w.h.requests);
      }
    }
  }

  lemma FreshEvident(g: Goal, log: seq<Event>, requests: set<(string, nat, TurnId)>)
    requires g.pendingComplete.None? && Unblamed(g)
    ensures Evident(g, log, requests)
  {}

  lemma EvidenceNext(w: World, op: Op)
    requires EvidenceOk(w)
    ensures EvidenceOk(Next(w, op))
  {
    hide Step, Evident, FreeTime, Logged, B.Written;
    var n := Next(w, op);
    if Plain(op) { PlainEvident(w, op); } else { OtherEvident(w, op); }
    B.DiskWritten(w.s, op);
    assert n.s.disk == w.s.disk || n.s.disk == Persisted(n.s.mem) by { DiskOf(w.s, op, n.s); }
    if w.s.disk.Some? { MoreRequests(w.s.disk.value, w.h.diskLog, w.h.requests, n.h.requests); }
  }

  lemma DiskOf(s: State, op: Op, n: State)
    requires B.Written(s, op, n)
    ensures n.disk == s.disk || n.disk == Persisted(n.mem)
  {}

  lemma {:induction false} EvidenceRun(w: World, ops: seq<Op>)
    requires EvidenceOk(w)
    ensures EvidenceOk(Run(w, ops))
    decreases |ops|
  {
    hide EvidenceOk, Next;
    if ops != [] {
      EvidenceNext(w, ops[0]);
      EvidenceRun(Next(w, ops[0]), ops[1..]);
    }
  }

  lemma InitEvidence(c: L.Coord)
    ensures EvidenceOk(Init(c))
  {}

  // ---------------------------------------------------------------- blocked

  /** In every reachable state: distinct turns, at most three, none exactly when there is no key, each one in the record. */
  lemma BlockerEvidence(c: L.Coord, ops: seq<Op>)
    ensures var w := Run(Init(c), ops);
      w.s.mem.Live? ==>
        var g := w.s.mem.goal;
        && |g.blockerTurns| <= 3
        && (forall i, j :: 0 <= i < j < |g.blockerTurns| ==> g.blockerTurns[i] != g.blockerTurns[j])
        && (g.blockerKey == "" <==> g.blockerTurns == [])
        && (g.status == Active ==> |g.blockerTurns| < 3)
        && (forall i :: 0 <= i < |g.blockerTurns| ==> g.blockerTurns[i] in TurnsSince(w.h.log, g.blockerKey))
  {
    hide Run, TurnsSince;
    InitEvidence(c);
    EvidenceRun(Init(c), ops);
  }

  predicate IsBlocked(mem: Slot) {
    mem.Live? && mem.goal.status == Blocked
  }

  lemma BlockerBlocks(s: State, op: Op)
    requires op.BlockerOp? && s.mem.Live? && !IsBlocked(s.mem) && BlameOk(s.mem.goal)
    ensures var n := ReportBlocker(s, op.goalId, op.objectiveRevision, op.turnId, op.key, op.reason, op.now, op.ok).0;
      IsBlocked(n.mem) ==> |n.mem.goal.blockerTurns| == BLOCKER_TURNS && n.mem.goal.blockerKey == op.key
  {
    hide AddMillis, ElapsedMillis, Distinct;
  }

  lemma OnlyReportsBlock(s: State, op: Op)
    requires !IsBlocked(s.mem) && IsBlocked(Step(s, op).0.mem)
    ensures op.BlockerOp? || (op.RestartOp? && s.disk.Some? && s.disk.value.status == Blocked)
  {
    hide Step, Moves, Reconcile, Clear, ValidGoal;
    StepOf(s, op);
    if Plain(op) { PlainQuiet(s, op); }
    else if Billing(op) { UsageAccounts(s, op); }
    else if op.CreateOp? { CreateShape(s, op); }
    else if op.ClearOp? { ClearShape(s, op); }
    else if s.disk.Some? { ReconcileAccounts(s.disk.value, if op.RestartOp? then LoadLedger(s, op.load) else None, op.now); }
  }

  /** Three distinct turns reported this key since the last break. */
  predicate ThreeReported(log: seq<Event>, key: string) {
    exists a, b, d :: a in TurnsSince(log, key) && b in TurnsSince(log, key) && d in TurnsSince(log, key) && a != b && b != d && a != d
  }

  lemma ThreeTurns(g: Goal, log: seq<Event>, requests: set<(string, nat, TurnId)>)
    requires Evident(g, log, requests) && |g.blockerTurns| == BLOCKER_TURNS
    ensures ThreeReported(log, g.blockerKey)
  {
    hide TurnsSince, RequestOk;
    var a, b, d := g.blockerTurns[0], g.blockerTurns[1], g.blockerTurns[2];
    assert a in TurnsSince(log, g.blockerKey) && b in TurnsSince(log, g.blockerKey) && d in TurnsSince(log, g.blockerKey);
    assert a != b && b != d && a != d;
  }

  lemma ThirdReport(w: World, op: Op)
    requires EvidenceOk(w) && op.BlockerOp? && !IsBlocked(w.s.mem) && IsBlocked(Next(w, op).s.mem)
    ensures ThreeReported(Next(w, op).h.log, op.key)
  {
    hide Step, TurnsSince, FreeTime, Logged, Evident, ThreeReported, ReportBlocker;
    TurnStepOf(w.s, op);
    EvidenceNext(w, op);
    StaysLive(w.s, op);
    BlameOf(w.s.mem.goal, w.h.log, w.h.requests);
    BlockerBlocks(w.s, op);
    ThreeTurns(Next(w, op).s.mem.goal, Next(w, op).h.log, Next(w, op).h.requests);
  }

  lemma BlameOf(g: Goal, log: seq<Event>, requests: set<(string, nat, TurnId)>)
    requires Evident(g, log, requests)
    ensures BlameOk(g)
  {}

  /**
   * A step that blocks the Goal is the third report: three distinct turns reported its key, with no user-steered turn,
   * edit, pause, resume or report of another key among their reports.  A restart only restores a blocked Goal.
   */
  lemma BlockedNeedsThree(c: L.Coord, ops: seq<Op>, op: Op)
    requires var w := Run(Init(c), ops); !IsBlocked(w.s.mem) && IsBlocked(Next(w, op).s.mem)
    ensures var w := Run(Init(c), ops);
      || (op.RestartOp? && w.s.disk.Some? && w.s.disk.value.status == Blocked)
      || (op.BlockerOp? && ThreeReported(Next(w, op).h.log, op.key))
  {
    hide Run, Step, Logged, FreeTime, EvidenceOk, ThreeReported;
    InitEvidence(c);
    EvidenceRun(Init(c), ops);
    var w := Run(Init(c), ops);
    OnlyReportsBlock(w.s, op);
    if op.BlockerOp? { ThirdReport(w, op); }
  }

  lemma StaysLive(s: State, op: Op)
    requires op.BlockerOp? && Step(s, op).0.mem.Live?
    ensures s.mem.Live?
  {
    hide Step, Moves, Permits;
    PlainQuiet(s, op);
  }

  // ---------------------------------------------------------------- complete

  predicate IsComplete(mem: Slot) {
    mem.Live? && mem.goal.status == Complete
  }

  lemma OnlyTerminalCompletes(s: State, op: Op)
    requires !IsComplete(s.mem) && IsComplete(Step(s, op).0.mem)
    ensures op.TerminalOp? || (op.RestartOp? && s.disk.Some? && s.disk.value.status == Complete)
  {
    hide Step, Moves, Reconcile, Clear, ValidGoal;
    StepOf(s, op);
    if Plain(op) { PlainQuiet(s, op); }
    else if Billing(op) { UsageAccounts(s, op); }
    else if op.CreateOp? { CreateShape(s, op); }
    else if op.ClearOp? { ClearShape(s, op); }
    else if s.disk.Some? { ReconcileAccounts(s.disk.value, if op.RestartOp? then LoadLedger(s, op.load) else None, op.now); }
  }

  lemma TerminalCompletes(s: State, op: Op)
    requires op.TerminalOp? && !IsComplete(s.mem)
    requires IsComplete(Terminal(s, op.event, op.enabled, op.now, op.w).0.mem)
    ensures s.mem.Live? && s.turn.Some?
    ensures op.event.turnId == s.turn.value.turnId && op.event.goalId == s.mem.goal.goalId && op.event.objectiveRevision == s.mem.goal.objectiveRevision
    ensures op.event.reason == Completed && s.mem.goal.pendingComplete == Some(CompletionRequest(op.event.turnId, op.event.objectiveRevision))
    ensures s.mem.goal.pendingUsage.None? && s.turn.value.waiting == {} && !SteeringPending(s.coord)
  {
    hide EnqueueCursor, AddMillis, ElapsedMillis, BudgetRemains, SteeringPending, ValidContinuation;
  }

  /**
   * A step completes the Goal only at the completed terminal of the running turn, which had itself committed a completion
   * request for the current objective revision; no admission is pending, no wait is open and no user input is pending.
   */
  lemma CompletionSafety(c: L.Coord, ops: seq<Op>, op: Op)
    requires var w := Run(Init(c), ops); !IsComplete(w.s.mem) && IsComplete(Step(w.s, op).0.mem)
    ensures var w := Run(Init(c), ops);
      || (op.RestartOp? && w.s.disk.Some? && w.s.disk.value.status == Complete)
      || (&& op.TerminalOp? && op.event.reason == Completed
          && w.s.turn.Some? && w.s.turn.value.turnId == op.event.turnId && w.s.turn.value.waiting == {}
          && w.s.mem.Live? && w.s.mem.goal.pendingUsage.None?
          && (w.s.mem.goal.goalId, w.s.mem.goal.objectiveRevision, op.event.turnId) in w.h.requests
          && forall i :: i in L.Snapshot(w.s.coord, w.s.coord.scope) ==> i.kind != L.UserPrompt && i.kind != L.Steering)
  {
    hide Run, Step, Terminal, L.Snapshot, BlameOk, BlameSince;
    InitEvidence(c);
    EvidenceRun(Init(c), ops);
    var w := Run(Init(c), ops);
    OnlyTerminalCompletes(w.s, op);
    if op.TerminalOp? {
      TurnStepOf(w.s, op);
      TerminalCompletes(w.s, op);
    }
  }

  lemma CompleteKept(s: State, op: Op)
    requires B.StateOk(s) && IsComplete(s.mem) && !op.CreateOp? && !op.ClearOp? && !op.RestartOp? && !op.ReconcileOp?
    ensures IsComplete(Step(s, op).0.mem) && Step(s, op).0.mem.goal.goalId == s.mem.goal.goalId
  {
    hide Step, Moves, B.Balanced, B.Funded, B.CallsOk;
    StepOf(s, op);
    if Plain(op) {
      PlainQuiet(s, op);
      if Step(s, op).0.mem != s.mem { MovesId(s.mem.goal, Step(s, op).0.mem.goal); }
    } else if Billing(op) { UsageAccounts(s, op); }
  }

  /** While the session lives, a completed Goal leaves that status only by creating another Goal or clearing. */
  lemma CompleteStays(c: L.Coord, ops: seq<Op>, op: Op)
    requires AllowedRun(Init(c), ops) && IsComplete(Run(Init(c), ops).s.mem)
    requires !op.CreateOp? && !op.ClearOp? && !op.RestartOp? && !op.ReconcileOp?
    ensures var s, n := Run(Init(c), ops).s, Step(Run(Init(c), ops).s, op).0; IsComplete(n.mem) && n.mem.goal.goalId == s.mem.goal.goalId
  {
    hide Run, AllowedRun, Step, B.StateOk, B.Known;
    B.InitBooks(c);
    B.RunKeeps(Init(c), ops);
    CompleteKept(Run(Init(c), ops).s, op);
  }
}
