/** The theorems about provider usage over whole runs. */
module GoalConservation {
  import opened Basics
  import opened RuntimeTypes
  import opened UsageNormalize
  import opened GoalTypes
  import opened GoalUsage
  import opened GoalMachine
  import opened GoalRuns
  import opened GoalSteps
  import opened GoalBooks
  import L = InputLedger

  /**
   * In every reachable state, for the Goal in memory and for the Goal on disk: the ledger holds exactly revisions
   * 1 to `usageLedgerRevision`, and at most the record of the pending admission beyond them; the aggregate is the
   * sum of their billable tokens.
   */
  lemma TokenConservation(c: L.Coord, ops: seq<Op>)
    requires AllowedRun(Init(c), ops)
    ensures var s := Run(Init(c), ops).s;
      forall g :: s.mem == Live(g) || s.disk == Some(g) ==>
        var records := Of(s.ledger, g.goalId);
        && (forall i :: 0 <= i < |records| ==> records[i].ledgerRevision == i + 1)
        && (|records| == g.usageLedgerRevision ||
            (|records| == g.usageLedgerRevision + 1 && g.pendingUsage.Some? && Matches(records[g.usageLedgerRevision], g.pendingUsage.value)))
        && g.tokensUsed == Billed(records[..g.usageLedgerRevision])
  {
    hide Of, Billed, Run, AllowedRun, CallsOk, Known;
    InitBooks(c);
    RunKeeps(Init(c), ops);
  }

  /** The gate token and the unsettled calls are together exactly one. */
  lemma OneTokenOrCall(c: L.Coord, ops: seq<Op>)
    requires AllowedRun(Init(c), ops)
    ensures var s := Run(Init(c), ops).s; s.gate + |s.calls| == 1
  {
    hide Of, Sound, Run, AllowedRun, Known;
    InitBooks(c);
    RunKeeps(Init(c), ops);
  }

  /** An active Goal has budget left, in memory and on disk. */
  lemma ActiveHasBudget(c: L.Coord, ops: seq<Op>)
    requires AllowedRun(Init(c), ops)
    ensures var s := Run(Init(c), ops).s;
      forall g :: (s.mem == Live(g) || s.disk == Some(g)) && (g.status == Active || g.pendingUsage.Some?) ==> BudgetRemains(g.tokenBudget, g.tokensUsed)
  {
    hide Of, Balanced, Run, AllowedRun, CallsOk, Known, BudgetRemains;
    InitBooks(c);
    RunKeeps(Init(c), ops);
  }

  // ---------------------------------------------------------------- earlier admissions

  predicate Recorded(a: Admission, ledger: seq<Record>) {
    exists i :: 0 <= i < |ledger| && Matches(ledger[i], a)
  }

  /** Released before dispatch, or matched by its exact ledger record. */
  predicate Settles(a: Admission, released: set<Admission>, ledger: seq<Record>) {
    a in released || Recorded(a, ledger)
  }

  function PendingOf(g: Option<Goal>): (r: Option<Admission>) {
    if g.Some? then g.value.pendingUsage else None
  }

  /** Every call ever admitted is settled, except perhaps this one. */
  predicate AllBut(pending: Option<Admission>, w: World) {
    forall a :: a in w.h.admitted ==> Settles(a, w.h.released, w.s.ledger) || pending == Some(a)
  }

  predicate DebtsOk(w: World) {
    AllBut(PendingOf(Persisted(w.s.mem)), w) && AllBut(PendingOf(w.s.disk), w)
  }

  /** The pending admission stays, or it leaves settled. */
  predicate Pays(before: Option<Admission>, after: Option<Admission>, released: set<Admission>, ledger: seq<Record>) {
    after == before || (before.Some? && Settles(before.value, released, ledger)) || before.None?
  }

  lemma AllButKept(w: World, n: World, before: Option<Admission>, after: Option<Admission>)
    requires AllBut(before, w) && n.h.admitted == w.h.admitted && w.h.released <= n.h.released && w.s.ledger <= n.s.ledger
    requires Pays(before, after, n.h.released, n.s.ledger)
    ensures AllBut(after, n)
  {
    forall a | a in w.h.admitted && Recorded(a, w.s.ledger) ensures Recorded(a, n.s.ledger) {
      var i :| 0 <= i < |w.s.ledger| && Matches(w.s.ledger[i], a);
      assert n.s.ledger[i] == w.s.ledger[i];
    }
  }

  lemma ReconcilePays(g: Goal, loaded: Option<Loaded>, ledger: seq<Record>, now: nat)
    requires loaded.Some? ==> loaded.value.records == ledger
    ensures var r := Reconcile(g, loaded, now).goal;
      r.pendingUsage == g.pendingUsage || (g.pendingUsage.Some? && Recorded(g.pendingUsage.value, ledger) && r.pendingUsage.None?)
  {
    hide Inspect, ValidRecord;
    var r := Inspect(g, loaded);
    if r.Success? && g.pendingUsage.Some? && g.pendingUsage.value.ledgerRevision in r.value {
      UnloadedIsEmpty(g, loaded);
      InspectSound(g, loaded.value);
      var record := r.value[g.pendingUsage.value.ledgerRevision];
      var i :| 0 <= i < |ledger| && ledger[i] == record;
    }
  }

  /** What an admission leaves behind: the earlier one settled, the new one pending. */
  lemma AdmitPays(s: State, op: Op)
    requires op.AdmitOp? && StateOk(s)
    ensures var (n, reply) := Admit(s, op.reporter, op.roundId, op.attempt, op.callId, op.load, op.now, op.w);
      && n.ledger == s.ledger
      && (reply == Done ==>
            && op.callId in n.calls && n.mem.Live? && n.disk == Some(n.mem.goal) && n.mem.goal.pendingUsage == Some(n.calls[op.callId].admission)
            && s.mem.Live? && s.gate == 1 && s.calls == map[] && !s.uncertain
            && (s.mem.goal.pendingUsage.Some? ==> Recorded(s.mem.goal.pendingUsage.value, s.ledger)))
      && (reply != Done ==>
            (n.mem == s.mem && n.disk == s.disk) ||
            (s.mem.Live? && n.mem.Live? && n.disk == Some(n.mem.goal) && Pays(s.mem.goal.pendingUsage, n.mem.goal.pendingUsage, {}, s.ledger)))
  {
    hide Reconcile, CheckAdmission, ValidAdmission, Recorded, BothSound, Stored, InFlightCall;
    if s.mem.Live? { ReconcilePays(s.mem.goal, LoadLedger(s, op.load), s.ledger, op.now); }
    if s.gate > 0 { GateFree(s); }
  }

  lemma CallPays(s: State, op: Op)
    requires StateOk(s) && (op.RecordOp? || op.CountOp? || op.ReleaseOp? || op.AmbiguousOp?)
    ensures var (n, reply) := Step(s, op);
      && s.ledger <= n.ledger
      && ((n.mem == s.mem && n.disk == s.disk) ||
          (s.mem.Live? && n.mem.Live? && n.disk == Some(n.mem.goal) &&
           Pays(s.mem.goal.pendingUsage, n.mem.goal.pendingUsage,
                if op.ReleaseOp? && reply == Done && op.callId in s.calls then {s.calls[op.callId].admission} else {}, s.ledger)))
  {
    hide Step, Normalize, ValidRecord, Sound, CallsOk, InFlightCall, Recorded;
    StepOf(s, op);
    if op.callId in s.calls {
      Calling(s, op.callId);
      if op.CountOp? && s.calls[op.callId].phase.Recorded? {
        OwnRecord(s, op.callId);
      }
    }
  }

  lemma OwnRecord(s: State, callId: string)
    requires StateOk(s) && callId in s.calls && s.calls[callId].phase.Recorded?
    ensures Matches(s.calls[callId].phase.record, s.calls[callId].admission) ==> Recorded(s.calls[callId].admission, s.ledger)
  {
    Calling(s, callId);
    var id, record := s.mem.goal.goalId, s.calls[callId].phase.record;
    FilterMembers(s.ledger, OwnedBy(id));
    assert Of(s.ledger, id)[s.mem.goal.usageLedgerRevision] in Of(s.ledger, id);
    assert record in s.ledger;
  }

  /** The Goal in memory pays, and the Goal on disk is the old one or the new one in memory. */
  lemma DebtsKept(w: World, n: World)
    requires DebtsOk(w) && n.h.admitted == w.h.admitted && w.h.released <= n.h.released && w.s.ledger <= n.s.ledger
    requires Pays(PendingOf(Persisted(w.s.mem)), PendingOf(Persisted(n.s.mem)), n.h.released, n.s.ledger)
    requires n.s.disk == w.s.disk || n.s.disk == Persisted(n.s.mem)
    ensures DebtsOk(n)
  {
    hide AllBut, Pays;
    AllButKept(w, n, PendingOf(Persisted(w.s.mem)), PendingOf(Persisted(n.s.mem)));
    assert Pays(PendingOf(w.s.disk), PendingOf(w.s.disk), n.h.released, n.s.ledger) by { PaysItself(PendingOf(w.s.disk), n); }
    AllButKept(w, n, PendingOf(w.s.disk), PendingOf(w.s.disk));
  }

  lemma PaysItself(a: Option<Admission>, n: World)
    ensures Pays(a, a, n.h.released, n.s.ledger)
  {}

  lemma PaysMore(before: Option<Admission>, after: Option<Admission>, released: set<Admission>, ledger: seq<Record>, n: World)
    requires Pays(before, after, released, ledger) && released <= n.h.released && ledger <= n.s.ledger
    ensures Pays(before, after, n.h.released, n.s.ledger)
  {
    if before.Some? && Recorded(before.value, ledger) {
      var i :| 0 <= i < |ledger| && Matches(ledger[i], before.value);
      assert n.s.ledger[i] == ledger[i];
    }
  }

  lemma AdmitDebts(w: World, op: Op)
    requires BooksOk(w) && DebtsOk(w) && op.AdmitOp?
    ensures DebtsOk(Next(w, op))
  {
    hide Step, Admit, StateOk, Known, Recorded, Logged, FreeTime;
    StepOf(w.s, op);
    AdmitPays(w.s, op);
    var n := Next(w, op);
    if Step(w.s, op).1 == Done {
      assert forall a :: a in n.h.admitted ==> Settles(a, n.h.released, n.s.ledger) || n.s.mem.goal.pendingUsage == Some(a);
    } else {
      assert n.h.admitted == w.h.admitted;
      DebtsKept(w, n);
    }
  }

  lemma RestartPays(s: State, op: Op)
    requires op.RestartOp?
    ensures Pays(PendingOf(s.disk), PendingOf(Persisted(Restart(s, op.coord, op.load, op.now, op.ok).0.mem)), {}, s.ledger)
  {
    hide Reconcile, ValidGoal, Recorded;
    if s.disk.Some? { ReconcilePays(s.disk.value, LoadLedger(s, op.load), s.ledger, op.now); }
  }

  lemma RestartDebts(w: World, op: Op)
    requires DebtsOk(w) && op.RestartOp?
    ensures DebtsOk(Next(w, op))
  {
    hide Step, RestoreGoal, Recorded, Logged, FreeTime, AllBut;
    StepOf(w.s, op);
    RestartPays(w.s, op);
    var n := Next(w, op);
    AllButKept(w, n, PendingOf(w.s.disk), PendingOf(Persisted(n.s.mem)));
    AllButKept(w, n, PendingOf(w.s.disk), PendingOf(w.s.disk));
  }

  lemma IdlePays(s: State, op: Op)
    requires StateOk(s) && (op.CreateOp? || op.ClearOp? || op.CheckpointOp? || Plain(op))
    ensures var n := Step(s, op).0;
      && n.ledger == s.ledger
      && Pays(PendingOf(Persisted(s.mem)), PendingOf(Persisted(n.mem)), {}, s.ledger)
      && (n.disk == s.disk || n.disk == Persisted(n.mem))
  {
    hide Step, Permits, CallsOk, Balanced, Funded, Recorded, Retire;
    StepOf(s, op);
    DiskWritten(s, op);
    if op.CreateOp? { CreateShape(s, op); }
    else if Plain(op) { PlainQuiet(s, op); }
  }

  lemma DebtsNext(w: World, op: Op)
    requires BooksOk(w) && DebtsOk(w)
    ensures DebtsOk(Next(w, op))
  {
    hide Step, StateOk, Known, Recorded, Logged, FreeTime, DebtsOk;
    if op.AdmitOp? { AdmitDebts(w, op); }
    else if op.RestartOp? { RestartDebts(w, op); }
    else {
      var n := Next(w, op);
      var released := if op.ReleaseOp? && Step(w.s, op).1 == Done && op.callId in w.s.calls then {w.s.calls[op.callId].admission} else {};
      if Billing(op) { CallPays(w.s, op); } else { IdlePays(w.s, op); }
      PaysMore(PendingOf(Persisted(w.s.mem)), PendingOf(Persisted(n.s.mem)), released, w.s.ledger, n);
      DebtsKept(w, n);
    }
  }

  lemma {:induction false} DebtsRun(w: World, ops: seq<Op>)
    requires BooksOk(w) && DebtsOk(w) && AllowedRun(w, ops)
    ensures DebtsOk(Run(w, ops)) && BooksOk(Run(w, ops))
    decreases |ops|
  {
    hide BooksOk, DebtsOk, Next, Allowed;
    if ops != [] {
      NextKeeps(w, ops[0]);
      DebtsNext(w, ops[0]);
      DebtsRun(Next(w, ops[0]), ops[1..]);
    }
  }

  /**
   * After any run, a call is admitted only when no other is unsettled, no usage is in doubt, and every call admitted
   * before it, for any Goal, was released before dispatch or has its exact record in the ledger.
   */
  lemma NoSecondCall(c: L.Coord, ops: seq<Op>, op: Op)
    requires AllowedRun(Init(c), ops) && op.AdmitOp?
    requires Step(Run(Init(c), ops).s, op).1 == Done
    ensures var w := Run(Init(c), ops);
      && w.s.gate == 1 && w.s.calls == map[] && !w.s.uncertain
      && forall a :: a in w.h.admitted ==> Settles(a, w.h.released, w.s.ledger)
  {
    hide Run, AllowedRun, Step, Admit, StateOk, Known, Recorded;
    InitBooks(c);
    DebtsRun(Init(c), ops);
    StepOf(Run(Init(c), ops).s, op);
    AdmitPays(Run(Init(c), ops).s, op);
  }

  // ---------------------------------------------------------------- overshoot

  /**
   * A step that counts a call counts exactly one, by its own record, and that call started under the budget in force:
   * the aggregate passes the budget by less than the call's billable tokens.
   */
  lemma OvershootBounded(c: L.Coord, ops: seq<Op>, op: Op)
    requires AllowedRun(Init(c), ops) && (op.CountOp? || op.AdmitOp?)
    ensures var s, n := Run(Init(c), ops).s, Step(Run(Init(c), ops).s, op).0;
      s.mem.Live? && n.mem.Live? && n.mem.goal.usageLedgerRevision != s.mem.goal.usageLedgerRevision ==>
        var g, m := s.mem.goal, n.mem.goal;
        && |Of(s.ledger, g.goalId)| == g.usageLedgerRevision + 1 == m.usageLedgerRevision
        && var record := Of(s.ledger, g.goalId)[g.usageLedgerRevision];
        && m.tokensUsed == g.tokensUsed + record.tokens.billable
        && m.tokenBudget == g.tokenBudget
        && (g.tokenBudget.Some? ==> g.tokensUsed < g.tokenBudget.value && m.tokensUsed < g.tokenBudget.value + record.tokens.billable)
  {
    hide Run, AllowedRun, Step, Known;
    InitBooks(c);
    RunKeeps(Init(c), ops);
    CountsOne(Run(Init(c), ops).s, op);
  }

  /** One more revision, by the one record beyond the counted ones. */
  predicate OneMore(g: Goal, m: Goal, records: seq<Record>) {
    && |records| == g.usageLedgerRevision + 1 == m.usageLedgerRevision
    && m.tokensUsed == g.tokensUsed + records[g.usageLedgerRevision].tokens.billable
    && m.tokenBudget == g.tokenBudget && BudgetRemains(g.tokenBudget, g.tokensUsed)
  }

  lemma CountsOne(s: State, op: Op)
    requires StateOk(s) && (op.CountOp? || op.AdmitOp?)
    ensures var n := Step(s, op).0;
      s.mem.Live? && n.mem.Live? && n.mem.goal.usageLedgerRevision != s.mem.goal.usageLedgerRevision ==>
        OneMore(s.mem.goal, n.mem.goal, Of(s.ledger, s.mem.goal.goalId))
  {
    hide Step, Sound, CallsOk, InFlightCall, Of, Apply, Reconcile, CheckAdmission, ValidAdmission, OneMore;
    StepOf(s, op);
    if s.mem.Live? {
      if op.CountOp? && op.callId in s.calls && s.calls[op.callId].phase.Recorded? {
        Calling(s, op.callId);
        ApplyOneMore(s.mem.goal, s.ledger, op.now);
      }
      if op.AdmitOp? {
        ReconcileOneMore(s.mem.goal, s.ledger, LoadLedger(s, op.load), op.now);
        var m := Reconcile(s.mem.goal, LoadLedger(s, op.load), op.now).goal;
        var n := Step(s, op).0;
        if n.mem.Live? && m.usageLedgerRevision != s.mem.goal.usageLedgerRevision {
          SameCount(s.mem.goal, m, n.mem.goal, Of(s.ledger, s.mem.goal.goalId));
        }
      }
    }
  }

  lemma SameCount(g: Goal, m: Goal, n: Goal, records: seq<Record>)
    requires OneMore(g, m, records)
    ensures n.usageLedgerRevision == m.usageLedgerRevision && n.tokensUsed == m.tokensUsed && n.tokenBudget == m.tokenBudget ==> OneMore(g, n, records)
  {}

  lemma ApplyOneMore(g: Goal, ledger: seq<Record>, now: nat)
    requires Sound(g, ledger) && |Of(ledger, g.goalId)| == g.usageLedgerRevision + 1
    ensures var r := Apply(g, Of(ledger, g.goalId)[g.usageLedgerRevision], now); r.Success? ==> OneMore(g, r.value, Of(ledger, g.goalId))
  {
    hide Of, Billed, ValidRecord, ValidAdmission;
  }

  lemma ReconcileOneMore(g: Goal, ledger: seq<Record>, loaded: Option<Loaded>, now: nat)
    requires Sound(g, ledger) && (loaded.Some? ==> loaded.value.records == ledger)
    ensures var r := Reconcile(g, loaded, now).goal; r.usageLedgerRevision != g.usageLedgerRevision ==> OneMore(g, r, Of(ledger, g.goalId))
  {
    hide Sound, Inspect, Apply, Of, OneMore;
    var r := Inspect(g, loaded);
    if r.Success? && g.pendingUsage.Some? && g.pendingUsage.value.ledgerRevision in r.value {
      UnloadedIsEmpty(g, loaded);
      FoundIsNext(g, loaded.value);
      ApplyOneMore(g, ledger, now);
    }
  }

  // ---------------------------------------------------------------- nothing is lost at a crash

  function TableOf(records: seq<Record>): (r: map<nat, Record>)
    ensures forall k :: k in r <==> 1 <= k <= |records|
    ensures forall k :: k in r ==> r[k] == records[k - 1]
  {
    if records == [] then map[] else TableOf(records[..|records| - 1])[|records| := records[|records| - 1]]
  }

  /** A clean load of a numbered ledger is accepted and yields the Goal's own records. */
  lemma {:induction false} CollectAll(g: Goal, all: seq<Record>, i: nat)
    requires i <= |all| && Numbered(Of(all, g.goalId), g.objectiveRevision)
    ensures Collect(g, all, i, TableOf(Of(all[..i], g.goalId))) == Success(TableOf(Of(all, g.goalId)))
    decreases |all| - i
  {
    hide Filter, ValidRecord;
    if i == |all| {
      assert all[..i] == all;
    } else {
      var before, record := Of(all[..i], g.goalId), all[i];
      assert all[..i + 1] == all[..i] + [record];
      OfAppend(all[..i], record, g.goalId);
      assert all == all[..i + 1] + all[i + 1..];
      FilterAppend(all[..i + 1], all[i + 1..], OwnedBy(g.goalId));
      CollectAll(g, all, i + 1);
      if record.call.goalId == g.goalId {
        assert Of(all, g.goalId)[|before|] == record;
        assert TableOf(before + [record]) == TableOf(before)[|before| + 1 := record];
      }
    }
  }

  lemma InspectAll(g: Goal, all: seq<Record>)
    requires Sound(g, all)
    ensures Inspect(g, Some(Loaded(all, false))) == Success(TableOf(Of(all, g.goalId)))
  {
    hide Collect, Of, ValidRecord, ValidAdmission, Funded, Billed;
    var records := Of(all, g.goalId);
    CollectAll(g, all, 0);
    EmptyTable(all, g.goalId);
    assert CommittedIn(TableOf(records), g.usageLedgerRevision) == UpTo(g.usageLedgerRevision);
  }

  lemma EmptyTable(all: seq<Record>, goalId: string)
    ensures TableOf(Of(all[..0], goalId)) == map[]
  {}

  /** What reconciliation over a clean ledger leaves, in terms of the records of the Goal. */
  predicate Caught(g: Goal, n: Goal, records: seq<Record>) {
    && n.goalId == g.goalId && n.revision < MAX_U64
    && (if Billed(records) <= MAX_U64 then n.usageLedgerRevision == |records| && n.tokensUsed == Billed(records)
        else n.usageLedgerRevision == |records| - 1 && n.tokensUsed == g.tokensUsed)
    && (n.pendingUsage.Some? <==> g.pendingUsage.Some? && (|records| == g.usageLedgerRevision || Billed(records) > MAX_U64))
    && (n.pendingUsage.Some? ==> n.pendingUsage == g.pendingUsage && n.status == UsageLimited)
  }

  /** The outstanding record is there. */
  lemma CaughtRecord(g: Goal, ledger: seq<Record>, now: nat)
    requires Sound(g, ledger) && g.revision < MAX_U64 - 1 && g.pendingUsage.Some? && |Of(ledger, g.goalId)| == g.usageLedgerRevision + 1
    ensures var records := Of(ledger, g.goalId);
      var r := Apply(g, records[g.usageLedgerRevision], now);
      Caught(g, if r.Success? then r.value else Limit(g, now, r.error).goal, records)
  {
    hide Of, ValidRecord, ValidAdmission, BudgetRemains, Billed;
    var records := Of(ledger, g.goalId);
    assert records[..|records|] == records;
    BilledStep(records, g.usageLedgerRevision);
  }

  /** It is not, or nothing is outstanding. */
  lemma CaughtNothing(g: Goal, ledger: seq<Record>, now: nat)
    requires Sound(g, ledger) && g.revision < MAX_U64 - 1 && |Of(ledger, g.goalId)| == g.usageLedgerRevision
    ensures var n := if g.pendingUsage.None? then g else Forget(Restatus(NextRevision(g, now).value, UsageLimited, COVERAGE_INCOMPLETE));
      Caught(g, n, Of(ledger, g.goalId))
  {
    hide Of, ValidRecord, ValidAdmission, BudgetRemains, Billed;
    var records := Of(ledger, g.goalId);
    assert records[..|records|] == records;
  }

  lemma CleanReconcile(g: Goal, ledger: seq<Record>, now: nat)
    requires Sound(g, ledger) && g.revision < MAX_U64 - 1
    ensures Caught(g, Reconcile(g, Some(Loaded(ledger, false)), now).goal, Of(ledger, g.goalId))
  {
    hide Of, Inspect, Apply, Limit, Caught, Billed, ValidRecord, ValidAdmission, Funded;
    InspectAll(g, ledger);
    if |Of(ledger, g.goalId)| == g.usageLedgerRevision { CaughtNothing(g, ledger, now); } else { CaughtRecord(g, ledger, now); }
  }
}
