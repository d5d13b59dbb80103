/** Two concrete runs without a failed write after which the next start refuses the Goal. */
module GoalWitness {
  import opened Basics
  import opened RuntimeTypes
  import opened UsageNormalize
  import opened GoalTypes
  import opened GoalUsage
  import opened GoalMachine
  import opened GoalRuns
  import opened GoalSteps
  import opened GoalRestart
  import L = InputLedger
  import D = GoalStored

  const ALL := Writes(true, true, true, true, true)
  const FREE := Control(NO_TURN, NO_TURN, false)
  const FIRST := Turn("1")
  const SECOND := Turn("2")
  const SESSION := Scope("s", "t", "")
  const REPORTER := Reporter("g", 1, "s", "t", SECOND, Subject("s", "t", "", 0), false)
  const CALL := CallIdentity("g", 1, "s", "t", Subject("s", "t", "", 0), SECOND, "r", Attempt("", "", "", 0, 0), "c")
  const ADMISSION := Admission(1, CALL, 5)
  const STEERED := "superseded-by-user-steering"
  const USAGE := Usage(1, 0, 0, 1, 0)
  const RECORD := Record(1, CALL, Tokens(1, 0, 0, 0, 1, 1))

  /** An idle queue of the root session. */
  predicate Idle(c: L.Coord) {
    c.scope == SESSION && c.items == []
  }

  function Created(): (g: Goal) {
    Goal("g", "o", 1, Active, "", 1, None, 0, 0, 0, 0, None, NO_TURN, 0, None, None, "", [], 1, 1)
  }

  function Begun(): (g: Goal) {
    Created().(revision := 2, updatedAt := 2, lastTurnId := FIRST)
  }

  function Cursor(c: L.Coord): (r: Continuation) {
    Continuation(CursorIdentity("g", 1, 3, Active, SESSION, FIRST, 2, Completed, 3, None, 0, 0, 1, c.revision), CursorPending, "", 0)
  }

  function Continued(c: L.Coord): (g: Goal) {
    Begun().(revision := 3, updatedAt := 3, lastTerminalSequence := 2, continuationOrdinal := 1, continuation := Some(Cursor(c)))
  }

  function Again(c: L.Coord): (g: Goal) {
    Continued(c).(revision := 4, updatedAt := 4, lastTurnId := SECOND,
                  continuation := Some(Disposed(Cursor(c), CursorRejected, STEERED, 4)))
  }

  function Calling(c: L.Coord): (g: Goal) {
    Again(c).(revision := 5, updatedAt := 5, pendingUsage := Some(ADMISSION))
  }

  function Counted(c: L.Coord): (g: Goal) {
    Again(c).(revision := 6, updatedAt := 6, tokensUsed := 1, usageLedgerRevision := 1)
  }

  function Requested(c: L.Coord): (g: Goal) {
    Counted(c).(revision := 7, updatedAt := 7, pendingComplete := Some(CompletionRequest(SECOND, 1)))
  }

  function Finished(c: L.Coord): (g: Goal) {
    Counted(c).(revision := 8, updatedAt := 8, lastTerminalSequence := 12, status := Complete)
  }

  function At(g: Goal, turn: Option<TurnRuntime>, ledger: seq<Record>, c: L.Coord): (s: State) {
    State(Live(g), Some(g), turn, ledger, 1, map[], false, c)
  }

  function Running(turnId: TurnId, since: nat): (r: Option<TurnRuntime>) {
    Some(TurnRuntime(turnId, Some(since), {}))
  }

  const CREATE := CreateOp(FREE, "g", "o", None, 1, ALL)
  const BEGIN_FIRST := BeginOp(FIRST, true, None, FIRST, 2, ALL)
  const END_FIRST := TerminalOp(TerminalEvent("g", 1, FIRST, Completed, 0), true, 3, ALL)
  const BEGIN_SECOND := BeginOp(SECOND, true, None, SECOND, 4, ALL)
  const ADMIT := AdmitOp(REPORTER, "r", Attempt("", "", "", 0, 0), "c", Readable(false), 5, ALL)
  const APPEND := RecordOp("c", Some(USAGE), Appended, 5)
  const COUNT := CountOp("c", 6, true)
  const REQUEST := CompletionOp("g", 1, SECOND, 7, true)
  const END_SECOND := TerminalOp(TerminalEvent("g", 1, SECOND, Completed, 10), true, 8, ALL)

  /** The run: two turns, the second of which makes one provider call and asks for completion. */
  const SCRIPT := [CREATE] + [BEGIN_FIRST] + [END_FIRST] + [BEGIN_SECOND] + [ADMIT] + [APPEND] + [COUNT] + [REQUEST] + [END_SECOND]

  /** Another run: one turn, then an edit of the objective. */
  const EDIT := EditOp(FREE, "p", 4, ALL)
  const EDIT_SCRIPT := [CREATE] + [BEGIN_FIRST] + [END_FIRST] + [EDIT]

  // ---------------------------------------------------------------- the queue

  /** The queue once the first terminal has put the cursor's item in it. */
  ghost function Queue(c: L.Coord): (r: L.Coord) {
    EnqueueCursor(c, Cursor(c), 3, true).0
  }

  /** The queue once the second turn has taken it out again. */
  ghost function Emptied(c: L.Coord): (r: L.Coord) {
    Retire(Queue(c), ItemOf(Cursor(c).identity), STEERED, 4, 4, ALL).0
  }

  predicate OnlyCursor(k: L.Coord, id: ItemId) {
    k.scope == SESSION && forall i :: 0 <= i < |k.items| ==> k.items[i].id == id && k.items[i].state != L.Rejected
  }

  lemma QueueHolds(c: L.Coord)
    requires Idle(c)
    ensures OnlyCursor(Queue(c), ItemOf(Cursor(c).identity))
  {
    hide L.ValidItem, L.Encode, L.SameSubmission, L.PendingOfKind;
    var item, mode := CursorItem(Cursor(c)), L.Mode(Some((L.GoalContinuation, 1)), false);
    var one := L.EnqueueOne(c.scope, c.delivered, L.Draft(c.items, c.receipts, c.nextSequence, [], false), item, mode, 3);
    assert L.Drafted(c, [item], mode, 3) == one by {
      if one.Success? { assert L.EnqueueFrom(c.scope, c.delivered, one.value, [item], mode, 3, 1) == one; }
    }
  }

  lemma RetireEmpties(k: L.Coord, id: ItemId)
    requires OnlyCursor(k, id)
    ensures var (n, settled) := Retire(k, id, STEERED, 4, 4, ALL); settled && n.items == [] && n.scope == SESSION
  {
    hide L.Encode, Filter;
    var rejected := L.RejectContinuation(k, id, STEERED, 4, 4, true).0;
    FilterNothing(rejected.items, L.Unsettled({id}));
  }

  // ---------------------------------------------------------------- the steps

  lemma CreateStep(c: L.Coord)
    ensures Transition(Init(c).s, FREE, SUPERSEDED, CreateNext(Empty, "g", "o", None, false, 1), ALL).0 == At(Created(), None, [], c)
  {
    hide Retire;
  }

  lemma BeginFirst(c: L.Coord)
    ensures BeginTurn(At(Created(), None, [], c), FIRST, true, None, FIRST, 2, ALL).0 == At(Begun(), Running(FIRST, 2), [], c)
  {
    hide Retire, BeginContinuation;
  }

  lemma TerminalFirst(c: L.Coord)
    requires Idle(c)
    ensures Terminal(At(Begun(), Running(FIRST, 2), [], c), TerminalEvent("g", 1, FIRST, Completed, 0), true, 3, ALL).0 ==
      At(Continued(c), None, [], Queue(c))
  {
    hide EnqueueCursor, SteeringPending;
  }

  lemma BeginSecond(c: L.Coord)
    requires Idle(c)
    ensures BeginTurn(At(Continued(c), None, [], Queue(c)), SECOND, true, None, SECOND, 4, ALL).0 == At(Again(c), Running(SECOND, 4), [], Emptied(c))
  {
    hide Retire, BeginContinuation, EnqueueCursor;
    QueueHolds(c);
    RetireEmpties(Queue(c), ItemOf(Cursor(c).identity));
  }

  /** The one call in flight, and its place in the state. */
  function InFlight(phase: Phase): (r: map<string, Call>)
    ensures "c" in r && r["c"] == Call(ADMISSION, phase)
  {
    map["c" := Call(ADMISSION, phase)]
  }

  function During(phase: Phase, ledger: seq<Record>, c: L.Coord, k: L.Coord): (s: State) {
    State(Live(Calling(c)), Some(Calling(c)), Running(SECOND, 4), ledger, 0, InFlight(phase), false, k)
  }

  lemma CallPhases(phase: Phase, next: Phase)
    ensures map[]["c" := Call(ADMISSION, phase)] == InFlight(phase)
    ensures InFlight(phase)["c" := Call(ADMISSION, next)] == InFlight(next)
    ensures InFlight(phase) - {"c"} == map[]
  {}

  lemma AdmissionValid()
    ensures ValidAdmission(ADMISSION)
  {}

  lemma RecordIs()
    ensures Normalize(Some(USAGE)) == Success(RECORD.tokens) && ValidRecord(RECORD)
  {}

  lemma ReporterFits(c: L.Coord)
    ensures CheckAdmission(Live(Again(c)), REPORTER) == None
  {}

  lemma AdmitStep(c: L.Coord, k: L.Coord)
    ensures Admit(At(Again(c), Running(SECOND, 4), [], k), REPORTER, "r", Attempt("", "", "", 0, 0), "c", Readable(false), 5, ALL).0 ==
      During(Admitted, [], c, k)
  {
    hide Reconcile, CheckAdmission, ValidAdmission, InFlight;
    ReporterFits(c);
    AdmissionValid();
    CallPhases(Admitted, Admitted);
  }

  lemma RecordStep(c: L.Coord, k: L.Coord)
    ensures RecordUsage(During(Admitted, [], c, k), "c", Some(USAGE), Appended).0 == During(Recorded(RECORD), [RECORD], c, k)
  {
    hide Normalize, ValidRecord, InFlight, Calling;
    RecordIs();
    CallPhases(Admitted, Recorded(RECORD));
    assert [] + [RECORD] == [RECORD];
  }

  lemma ApplyIs(c: L.Coord)
    ensures Apply(Calling(c), RECORD, 6) == Success(Counted(c))
  {
    hide ValidRecord;
    RecordIs();
  }

  lemma CountStep(c: L.Coord, k: L.Coord)
    ensures CountUsage(During(Recorded(RECORD), [RECORD], c, k), "c", 6, true).0 == At(Counted(c), Running(SECOND, 4), [RECORD], k)
  {
    hide Apply, InFlight;
    ApplyIs(c);
    CallPhases(Recorded(RECORD), Admitted);
  }

  lemma CompletionStep(c: L.Coord, k: L.Coord)
    ensures RequestCompletion(At(Counted(c), Running(SECOND, 4), [RECORD], k), "g", 1, SECOND, 7, true).0 ==
      At(Requested(c), Running(SECOND, 4), [RECORD], k)
  {}

  lemma TerminalSecond(c: L.Coord, k: L.Coord)
    requires k.items == []
    ensures Terminal(At(Requested(c), Running(SECOND, 4), [RECORD], k), TerminalEvent("g", 1, SECOND, Completed, 10), true, 8, ALL).0 ==
      At(Finished(c), None, [RECORD], k)
  {
    hide EnqueueCursor;
    assert !SteeringPending(k);
  }

  lemma OtherSteps(s: State, op: Op)
    ensures op.CreateOp? ==>
      Step(s, op) == Transition(s, op.control, SUPERSEDED, CreateNext(s.mem, op.id, op.objective, op.budget, op.control.contained, op.now), op.w)
    ensures op.EditOp? ==> Step(s, op) == Transition(s, op.control, "superseded-by-objective-edit", EditNext(s.mem, op.objective, op.now), op.w)
  {
    hide Transition, Clear, Admit, RecordUsage, CountUsage, ReleaseCall, MarkAmbiguous, Restart, Checkpoint, RequestCompletion, ReportBlocker,
      OpenWait, CloseWait, MarkDelivered, AbandonTurn, BeginTurn, Terminal, CancelPause, ReconcileContinuation, CreateNext, EditNext;
  }

  /** A run is fair and ends somewhere. */
  ghost predicate Reaches(m: Metered, ops: seq<Op>, n: Metered) {
    FairRun(m, ops) && MeterRun(m, ops) == n
  }

  lemma {:induction false} Concat(m: Metered, a: seq<Op>, k: Metered, b: seq<Op>, n: Metered)
    requires Reaches(m, a, k) && Reaches(k, b, n)
    ensures Reaches(m, a + b, n)
    decreases |a|
  {
    hide MeterNext, Fair;
    if a == [] { assert a + b == b; } else {
      assert (a + b)[1..] == a[1..] + b && (a + b)[0] == a[0];
      Concat(MeterNext(m, a[0]), a[1..], k, b, n);
    }
  }

  lemma OneStep(m: Metered, op: Op)
    requires Fair(m, op)
    ensures Reaches(m, [op], MeterNext(m, op))
  {
    hide MeterNext, Fair;
    var n := MeterNext(m, op);
    assert FairRun(n, []) && MeterRun(n, []) == n;
    assert [op][1..] == [];
  }

  /** One more operation: its step, the clock, and the revision its turn began with. */
  lemma Extend(m: Metered, ops: seq<Op>, k: Metered, op: Op) returns (n: Metered)
    requires Reaches(m, ops, k) && op.now > 0 && op.now >= k.w.h.clock && (op.CreateOp? ==> op.id != "" && op.id !in k.w.h.ids)
    requires op.CompletionOp? && k.w.s.turn.Some? && k.w.s.mem.Live? ==> k.w.s.mem.goal.usageLedgerRevision > k.began
    ensures Reaches(m, ops + [op], n) && n.w.s == Step(k.w.s, op).0 && n.w.h.clock == op.now
    ensures n.began == if k.w.s.turn.None? && n.w.s.turn.Some? && n.w.s.mem.Live? then n.w.s.mem.goal.usageLedgerRevision else k.began
  {
    hide Step, Logged, FreeTime, Reaches;
    n := MeterNext(k, op);
    OneStep(k, op);
    Concat(m, ops, k, [op], n);
  }

  const FIRST_TURN := [CREATE] + [BEGIN_FIRST] + [END_FIRST]

  /** The first turn ends with a minted cursor. */
  lemma FirstTurn(c: L.Coord) returns (n: Metered)
    requires Idle(c)
    ensures Reaches(Start(c), FIRST_TURN, n) && n.w.s == At(Continued(c), None, [], Queue(c)) && n.w.h.clock == 3
  {
    hide Step, Reaches, Transition, BeginTurn, Terminal, Queue;
    var m := Start(c);
    assert Reaches(m, [], m) by { Nowhere(m); }
    OtherSteps(m.w.s, CREATE);
    CreateStep(c);
    n := Extend(m, [], m, CREATE);
    assert [] + [CREATE] == [CREATE];
    TurnStepOf(n.w.s, BEGIN_FIRST);
    BeginFirst(c);
    n := Extend(m, [CREATE], n, BEGIN_FIRST);
    TurnStepOf(n.w.s, END_FIRST);
    TerminalFirst(c);
    n := Extend(m, [CREATE] + [BEGIN_FIRST], n, END_FIRST);
  }

  lemma Nowhere(m: Metered)
    ensures Reaches(m, [], m)
  {}

  /** The user steers: the second turn starts, and its call is recorded and counted. */
  lemma SecondTurn(m: Metered, ops: seq<Op>, p: Metered, c: L.Coord) returns (n: Metered)
    requires Idle(c) && Reaches(m, ops, p) && p.w.s == At(Continued(c), None, [], Queue(c)) && p.w.h.clock == 3
    ensures Reaches(m, ops + [BEGIN_SECOND] + [ADMIT] + [APPEND] + [COUNT], n) && n.w.h.clock == 6 && n.began == 0
    ensures n.w.s == At(Counted(c), Running(SECOND, 4), [RECORD], Emptied(c))
  {
    hide Step, Reaches, BeginTurn, Admit, RecordUsage, CountUsage, Queue, Emptied;
    TurnStepOf(p.w.s, BEGIN_SECOND);
    BeginSecond(c);
    n := Extend(m, ops, p, BEGIN_SECOND);
    StepOf(n.w.s, ADMIT);
    AdmitStep(c, Emptied(c));
    n := Extend(m, ops + [BEGIN_SECOND], n, ADMIT);
    StepOf(n.w.s, APPEND);
    RecordStep(c, Emptied(c));
    n := Extend(m, ops + [BEGIN_SECOND] + [ADMIT], n, APPEND);
    StepOf(n.w.s, COUNT);
    CountStep(c, Emptied(c));
    n := Extend(m, ops + [BEGIN_SECOND] + [ADMIT] + [APPEND], n, COUNT);
  }

  /** It asks for completion and gets it. */
  lemma Completion(m: Metered, ops: seq<Op>, p: Metered, c: L.Coord) returns (n: Metered)
    requires Idle(c) && Reaches(m, ops, p) && p.w.s == At(Counted(c), Running(SECOND, 4), [RECORD], Emptied(c)) && p.w.h.clock == 6 && p.began == 0
    ensures Reaches(m, ops + [REQUEST] + [END_SECOND], n) && n.w.s == At(Finished(c), None, [RECORD], Emptied(c))
  {
    hide Step, Reaches, RequestCompletion, Terminal, Queue;
    TurnStepOf(p.w.s, REQUEST);
    CompletionStep(c, Emptied(c));
    n := Extend(m, ops, p, REQUEST);
    TurnStepOf(n.w.s, END_SECOND);
    QueueHolds(c);
    RetireEmpties(Queue(c), ItemOf(Cursor(c).identity));
    TerminalSecond(c, Emptied(c));
    n := Extend(m, ops + [REQUEST], n, END_SECOND);
  }

  /**
   * Two turns that the user starts, one provider call, every write succeeding: a completed Goal on disk whose cursor was
   * retired before its last turn.  The next start makes that Goal unavailable.
   */
  lemma CompletedGoalComesBackUnavailable(c: L.Coord, loaded: Option<Loaded>, now: nat)
    requires Idle(c)
    ensures FairRun(Start(c), SCRIPT)
    ensures var s := MeterRun(Start(c), SCRIPT).w.s;
      && s.disk == Some(Finished(c)) && Finished(c).status == Complete
      && RestoreGoal(s.disk, loaded, now) == Withheld(Finished(c))
  {
    hide MeterRun, FairRun, RestoreGoal, Queue, Emptied;
    var m := Start(c);
    var n := FirstTurn(c);
    var ops := FIRST_TURN;
    n := SecondTurn(m, ops, n, c);
    ops := ops + [BEGIN_SECOND] + [ADMIT] + [APPEND] + [COUNT];
    n := Completion(m, ops, n, c);
    CompletedRestoresExact(c, SCRIPT, loaded, now);
  }

  lemma EditStep(c: L.Coord)
    ensures var (n, reply) := Transition(At(Continued(c), None, [], Queue(c)), FREE, "superseded-by-objective-edit",
                                         EditNext(Live(Continued(c)), "p", 4), ALL);
      reply == Done && n.mem.Live? && n.disk == Some(n.mem.goal) && n.mem.goal.status == Active && n.mem.goal.continuation.Some?
  {
    hide Retire, EnqueueCursor;
  }

  /** One turn and an edit of the objective, every write succeeding: the next start makes the active Goal unavailable. */
  lemma EditedGoalComesBackUnavailable(c: L.Coord, loaded: Option<Loaded>, now: nat)
    requires Idle(c)
    ensures AllowedRun(Init(c), EDIT_SCRIPT)
    ensures var s := Run(Init(c), EDIT_SCRIPT).s;
      s.disk.Some? && s.disk.value.status == Active && RestoreGoal(s.disk, loaded, now) == Withheld(s.disk.value)
  {
    hide MeterRun, FairRun, Run, AllowedRun, RestoreGoal, Step, Transition, Queue, ValidGoal, EditNext;
    var m := Start(c);
    var n := FirstTurn(c);
    MeterIsRun(m, FIRST_TURN);
    OtherSteps(n.w.s, EDIT);
    EditStep(c);
    D.EditExact(c, FIRST_TURN, EDIT);
    var e := Extend(m, FIRST_TURN, n, EDIT);
    MeterIsRun(m, EDIT_SCRIPT);
    InvalidWithheld(e.w.s.disk.value, loaded, now);
  }

  lemma InvalidWithheld(g: Goal, loaded: Option<Loaded>, now: nat)
    requires !ValidGoal(g)
    ensures RestoreGoal(Some(g), loaded, now) == Withheld(g)
  {}
}
