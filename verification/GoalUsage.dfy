/** Provider-usage accounting (engine/goal_usage.go): the ledger, one record applied, reconciliation. */
module GoalUsage {
  import opened Basics
  import opened RuntimeTypes
  import opened UsageNormalize
  import opened GoalTypes

  // ---------------------------------------------------------------- validation

  predicate ValidSubject(rootSessionId: string, rootThreadId: string, s: Subject) {
    && s.sessionId != "" && s.threadId != ""
    && (if s.agentId == "" then s.generation == 0 && s.sessionId == rootSessionId && s.threadId == rootThreadId else s.generation > 0)
  }

  predicate ValidAttempt(a: Attempt) {
    a.requestId != "" || a.attemptId != "" || a.profile != "" ==>
      a.requestId != "" && a.attemptId != "" && a.profile != "" && a.attemptIndex >= 0 && a.retryIndex >= 0
  }

  predicate ValidCall(ledgerRevision: nat, c: CallIdentity) {
    && ledgerRevision > 0 && c.objectiveRevision > 0
    && c.goalId != "" && c.rootSessionId != "" && c.rootThreadId != ""
    && c.turnId != NO_TURN && c.roundId != "" && c.callId != ""
    && ValidAttempt(c.attempt)
    && ValidSubject(c.rootSessionId, c.rootThreadId, c.executing)
  }

  /** transcript.ValidateGoalUsageRecord. */
  predicate ValidRecord(r: Record) {
    ValidCall(r.ledgerRevision, r.call) && ValidTokens(r.tokens)
  }

  predicate ValidAdmission(a: Admission) {
    a.admittedAt > 0 && ValidCall(a.ledgerRevision, a.call)
  }

  /** goalUsageRecordMatchesAdmission. */
  predicate Matches(r: Record, a: Admission) {
    r.ledgerRevision == a.ledgerRevision && r.call == a.call
  }

  /** validateGoalUsageReporter on an available Goal. */
  function CheckReporter(g: Goal, r: Reporter): (e: Option<GoalError>) {
    if r.revoked || r.goalId == "" || r.objectiveRevision == 0 || r.rootSessionId == "" || r.rootThreadId == "" then Some(CapabilityUnavailable)
    else if g.goalId != r.goalId || g.objectiveRevision != r.objectiveRevision || g.lastTurnId != r.turnId then Some(StaleBinding)
    else if !ValidSubject(r.rootSessionId, r.rootThreadId, r.subject) then Some(InvalidIdentity)
    else None
  }

  // ---------------------------------------------------------------- the ledger

  /** What a load of the transcript yields: the usage records, and whether some usage line was corrupt. */
  datatype Loaded = Loaded(records: seq<Record>, corrupt: bool)

  /** The first loop of inspectGoalUsageLedger. */
  function Collect(g: Goal, records: seq<Record>, i: nat, acc: map<nat, Record>): (r: Result<map<nat, Record>, GoalError>)
    requires i <= |records|
    decreases |records| - i
  {
    if i == |records| then Success(acc)
    else
      var record := records[i];
      if record.call.goalId != g.goalId then Collect(g, records, i + 1, acc)
      else if !ValidRecord(record) || record.call.objectiveRevision > g.objectiveRevision then Failure(CorruptLedger)
      else if record.ledgerRevision in acc then
        if acc[record.ledgerRevision] != record then Failure(CorruptLedger) else Collect(g, records, i + 1, acc)
      else Collect(g, records, i + 1, acc[record.ledgerRevision := record])
  }

  function CommittedIn(records: map<nat, Record>, ledgerRevision: nat): (r: set<nat>) {
    set k | k in records && k <= ledgerRevision
  }

  function Inspect(g: Goal, loaded: Option<Loaded>): (r: Result<map<nat, Record>, GoalError>) {
    var owes := g.usageLedgerRevision > 0 || g.pendingUsage.Some?;
    match loaded
    case None => if owes then Failure(CoverageIncomplete) else Success(map[])
    case Some(l) =>
      if l.corrupt && owes then Failure(CorruptLedger)
      else
        match Collect(g, l.records, 0, map[])
        case Failure(e) => Failure(e)
        case Success(records) =>
          if g.pendingUsage.Some? &&
             (g.usageLedgerRevision == MAX_U64 || g.pendingUsage.value.ledgerRevision != g.usageLedgerRevision + 1) then Failure(CorruptLedger)
          else if exists k :: k in records && k > g.usageLedgerRevision &&
                              !(g.pendingUsage.Some? && k == g.pendingUsage.value.ledgerRevision) then Failure(CorruptLedger)
          else if |CommittedIn(records, g.usageLedgerRevision)| != g.usageLedgerRevision then Failure(CorruptLedger)
          else Success(records)
  }

  method CollectRecords(g: Goal, all: seq<Record>) returns (r: Result<map<nat, Record>, GoalError>)
    ensures r == Collect(g, all, 0, map[])
  {
    var records: map<nat, Record> := map[];
    for i := 0 to |all|
      invariant Collect(g, all, 0, map[]) == Collect(g, all, i, records)
    {
      var record := all[i];
      if record.call.goalId != g.goalId { continue; }
      if !ValidRecord(record) { return Failure(CorruptLedger); }
      if record.call.objectiveRevision > g.objectiveRevision { return Failure(CorruptLedger); }
      if record.ledgerRevision in records {
        if records[record.ledgerRevision] != record { return Failure(CorruptLedger); }
        continue;
      }
      records := records[record.ledgerRevision := record];
    }
    return Success(records);
  }

  /** Counts the committed revisions, or finds one beyond them that no admission explains. */
  method CountCommitted(revisions: set<nat>, ledgerRevision: nat, pendingRevision: nat) returns (r: Option<nat>)
    ensures r.None? <==> exists k :: k in revisions && k > ledgerRevision && k != pendingRevision
    ensures r.Some? ==> r.value == |set k | k in revisions && k <= ledgerRevision|
  {
    var committed := 0;
    var todo := revisions;
    while todo != {}
      invariant todo <= revisions
      invariant forall k :: k in revisions && k !in todo && k > ledgerRevision ==> k == pendingRevision
      invariant committed == |set k | k in revisions - todo && k <= ledgerRevision|
      decreases todo
    {
      var revision :| revision in todo;
      ghost var before := set k | k in revisions - todo && k <= ledgerRevision;
      todo := todo - {revision};
      ghost var after := set k | k in revisions - todo && k <= ledgerRevision;
      if revision <= ledgerRevision {
        assert after == before + {revision};
        committed := committed + 1;
      } else if revision == pendingRevision {
        assert after == before;
      } else {
        return None;
      }
    }
    assert revisions - todo == revisions;
    return Some(committed);
  }

  /** inspectGoalUsageLedger as the source runs it: one pass over the records, one over the table. */
  method InspectLedger(g: Goal, loaded: Option<Loaded>) returns (r: Result<map<nat, Record>, GoalError>)
    ensures r == Inspect(g, loaded)
  {
    hide Collect;
    var owes := g.usageLedgerRevision > 0 || g.pendingUsage.Some?;
    if loaded.None? {
      if owes { return Failure(CoverageIncomplete); }
      return Success(map[]);
    }
    if loaded.value.corrupt && owes { return Failure(CorruptLedger); }
    var collected := CollectRecords(g, loaded.value.records);
    if collected.Failure? { return collected; }
    var pendingRevision := 0;
    if g.pendingUsage.Some? {
      if g.usageLedgerRevision == MAX_U64 || g.pendingUsage.value.ledgerRevision != g.usageLedgerRevision + 1 {
        return Failure(CorruptLedger);
      }
      pendingRevision := g.pendingUsage.value.ledgerRevision;
    }
    var committed := CountCommitted(collected.value.Keys, g.usageLedgerRevision, pendingRevision);
    if committed.None? { return Failure(CorruptLedger); }
    assert (set k | k in collected.value.Keys && k <= g.usageLedgerRevision) == CommittedIn(collected.value, g.usageLedgerRevision);
    if committed.value != g.usageLedgerRevision { return Failure(CorruptLedger); }
    return collected;
  }

  // ---------------------------------------------------------------- which ledgers are accepted

  function UpTo(n: nat): (r: set<nat>)
    ensures |r| == n && forall k :: k in r <==> 1 <= k <= n
  {
    if n == 0 then {} else UpTo(n - 1) + {n}
  }

  lemma SubsetSize(a: set<nat>, b: set<nat>)
    requires a <= b
    ensures |a| <= |b| && (|a| == |b| ==> a == b)
  {
    assert b == a + (b - a) && |b| == |a| + |b - a|;
  }

  /** Counting the committed revisions finds all of them exactly when each one from 1 on is there. */
  lemma CountedIsAll(records: map<nat, Record>, n: nat)
    requires 0 !in records
    ensures |CommittedIn(records, n)| == n <==> forall k :: 1 <= k <= n ==> k in records
  {
    SubsetSize(CommittedIn(records, n), UpTo(n));
    if forall k :: 1 <= k <= n ==> k in records { assert CommittedIn(records, n) == UpTo(n); }
    else { var k :| 1 <= k <= n && k !in records; assert k in UpTo(n) && k !in CommittedIn(records, n); }
  }

  /** A record of this Goal that the ledger may hold. */
  predicate Proper(g: Goal, r: Record) {
    ValidRecord(r) && r.call.objectiveRevision <= g.objectiveRevision
  }

  /** The Goal's own records are proper, and no two of them disagree about a revision. */
  predicate Consistent(g: Goal, records: seq<Record>) {
    && (forall r :: r in records && r.call.goalId == g.goalId ==> Proper(g, r))
    && (forall r, q :: r in records && q in records && r.call.goalId == g.goalId && q.call.goalId == g.goalId && r.ledgerRevision == q.ledgerRevision ==> r == q)
  }

  /** The table holds exactly the Goal's own records by revision. */
  predicate Tabled(g: Goal, records: seq<Record>, table: map<nat, Record>) {
    && (forall r :: r in records && r.call.goalId == g.goalId ==> r.ledgerRevision in table && table[r.ledgerRevision] == r)
    && (forall k :: k in table ==> table[k] in records && table[k].call.goalId == g.goalId && table[k].ledgerRevision == k)
  }

  lemma {:induction false} CollectExact(g: Goal, records: seq<Record>, i: nat, acc: map<nat, Record>)
    requires i <= |records| && Consistent(g, records[..i]) && Tabled(g, records[..i], acc)
    ensures var r := Collect(g, records, i, acc);
      && (r.Success? <==> Consistent(g, records))
      && (r.Success? ==> Tabled(g, records, r.value))
      && (r.Failure? ==> r.error == CorruptLedger)
    decreases |records| - i
  {
    hide ValidRecord;
    if i == |records| {
      assert records[..i] == records;
    } else {
      var record := records[i];
      var front, next := records[..i], records[..i + 1];
      assert next == front + [record];
      assert forall r :: r in next <==> r in front || r == record;
      assert record in records;
      RecordMore(g, front, record, acc);
      var mine := record.call.goalId == g.goalId;
      if !mine { CollectExact(g, records, i + 1, acc); }
      else if Proper(g, record) {
        if record.ledgerRevision !in acc { CollectExact(g, records, i + 1, acc[record.ledgerRevision := record]); }
        else if acc[record.ledgerRevision] == record { CollectExact(g, records, i + 1, acc); }
        else { assert acc[record.ledgerRevision] in records; }
      }
    }
  }

  lemma RecordMore(g: Goal, front: seq<Record>, record: Record, acc: map<nat, Record>)
    requires Consistent(g, front) && Tabled(g, front, acc)
    ensures record.call.goalId != g.goalId ==> Consistent(g, front + [record]) && Tabled(g, front + [record], acc)
    ensures record.call.goalId == g.goalId && Proper(g, record) && record.ledgerRevision !in acc ==>
      Consistent(g, front + [record]) && Tabled(g, front + [record], acc[record.ledgerRevision := record])
    ensures record.call.goalId == g.goalId && Proper(g, record) && record.ledgerRevision in acc && acc[record.ledgerRevision] == record ==>
      Consistent(g, front + [record]) && Tabled(g, front + [record], acc)
  {
    hide Proper;
    assert forall r :: r in front + [record] <==> r in front || r == record;
  }

  /**
   * A loaded ledger is accepted exactly when no usage line that matters was corrupt, the Goal's own records are proper and
   * agree, every counted revision is there, and nothing lies beyond them but the record of the pending admission, which is
   * for the next revision.
   */
  lemma InspectExact(g: Goal, l: Loaded)
    ensures var r := Inspect(g, Some(l));
      && (r.Success? <==>
            && !(l.corrupt && (g.usageLedgerRevision > 0 || g.pendingUsage.Some?))
            && Consistent(g, l.records)
            && (g.pendingUsage.Some? ==> g.usageLedgerRevision != MAX_U64 && g.pendingUsage.value.ledgerRevision == g.usageLedgerRevision + 1)
            && (forall q :: q in l.records && q.call.goalId == g.goalId ==>
                  q.ledgerRevision <= g.usageLedgerRevision || (g.pendingUsage.Some? && q.ledgerRevision == g.pendingUsage.value.ledgerRevision))
            && (forall k :: 1 <= k <= g.usageLedgerRevision ==> Listed(g, l.records, k)))
      && (r.Success? ==> Tabled(g, l.records, r.value))
  {
    hide Collect, ValidRecord;
    assert l.records[..0] == [];
    CollectExact(g, l.records, 0, map[]);
    var table := Collect(g, l.records, 0, map[]);
    if table.Success? {
      NoZero(g, l.records, table.value);
      CountedIsAll(table.value, g.usageLedgerRevision);
      forall k ensures k in table.value <==> Listed(g, l.records, k) { ListedIs(g, l.records, table.value, k); }
    }
  }

  /** One of the Goal's records has this revision. */
  predicate Listed(g: Goal, records: seq<Record>, k: nat) {
    exists q :: q in records && q.call.goalId == g.goalId && q.ledgerRevision == k
  }

  lemma ListedIs(g: Goal, records: seq<Record>, table: map<nat, Record>, k: nat)
    requires Tabled(g, records, table)
    ensures k in table <==> Listed(g, records, k)
  {
    if k in table { assert table[k] in records; }
  }

  lemma NoZero(g: Goal, records: seq<Record>, table: map<nat, Record>)
    requires Consistent(g, records) && Tabled(g, records, table)
    ensures 0 !in table
  {
    forall k | k in table ensures k > 0 { assert Proper(g, table[k]); }
  }

  // ---------------------------------------------------------------- applying and reconciling

  const BUDGET_EXHAUSTED := "budget-exhausted"
  const COVERAGE_INCOMPLETE := "usage-coverage-incomplete"

  function Apply(g: Goal, record: Record, now: nat): (r: Result<Goal, GoalError>) {
    if g.pendingUsage.None? then Failure(AdmissionPending)
    else if !ValidRecord(record) then Failure(CorruptLedger)
    else if !Matches(record, g.pendingUsage.value) then Failure(RecordMismatch)
    else if g.tokensUsed + record.tokens.billable > MAX_U64 then Failure(TokenOverflow)
    else
      match NextRevision(g, now)
      case Failure(e) => Failure(e)
      case Success(next) =>
        var counted := next.(tokensUsed := g.tokensUsed + record.tokens.billable,
                             usageLedgerRevision := record.ledgerRevision,
                             pendingUsage := None);
        if counted.tokenBudget.Some? && counted.tokensUsed >= counted.tokenBudget.value then
          Success(Forget(Restatus(counted, BudgetLimited, BUDGET_EXHAUSTED)))
        else Success(counted)
  }

  datatype Reconciled = Reconciled(goal: Goal, changed: bool, error: Option<GoalError>)

  /** usageLimitedGoalState, joined with the error that led to it. */
  function Limit(g: Goal, now: nat, error: GoalError): (r: Reconciled) {
    if g.status == Complete then Reconciled(g, false, Some(error))
    else
      match NextRevision(g, now)
      case Failure(_) => Reconciled(g, false, Some(error))
      case Success(next) => Reconciled(Forget(Restatus(next, UsageLimited, COVERAGE_INCOMPLETE)), true, Some(error))
  }

  function Reconcile(g: Goal, loaded: Option<Loaded>, now: nat): (r: Reconciled) {
    match Inspect(g, loaded)
    case Failure(e) => Limit(g, now, e)
    case Success(records) =>
      if g.pendingUsage.None? then Reconciled(g, false, None)
      else if g.pendingUsage.value.ledgerRevision !in records then
        match NextRevision(g, now)
        case Failure(e) => Reconciled(g, false, Some(e))
        case Success(next) => Reconciled(Forget(Restatus(next, UsageLimited, COVERAGE_INCOMPLETE)), true, Some(CoverageIncomplete))
      else
        match Apply(g, records[g.pendingUsage.value.ledgerRevision], now)
        case Failure(e) => Limit(g, now, e)
        case Success(next) => Reconciled(next, true, None)
  }
}
