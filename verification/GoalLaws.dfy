/** What one Goal control undoes. */
module GoalLaws {
  import opened Basics
  import opened RuntimeTypes
  import opened GoalTypes
  import opened GoalMachine

  /** The same Goal apart from its revision, its time, its evidence and its retired cursor. */
  predicate SameWork(g: Goal, n: Goal) {
    n == Forget(g).(reasonCode := "", revision := n.revision, updatedAt := n.updatedAt, continuation := n.continuation)
  }

  /** A transition that is not refused stores the new Goal, with an open cursor retired. */
  lemma Stores(s: State, boundary: TurnId, code: string, next: Goal, w: Writes)
    requires s.mem.Live? && s.turn.None? && w.first && next.revision != s.mem.goal.revision && next.continuation == s.mem.goal.continuation
    ensures var (n, reply) := Transition(s, Control(boundary, boundary, false), code, Success(next), w);
      && reply == Done && n.turn.None? && n.mem.Live? && n.disk == Some(n.mem.goal)
      && n.mem.goal == next.(continuation := n.mem.goal.continuation) && !OpenCursor(n.mem.goal.continuation)
  {
    hide Retire;
  }

  /**
   * Pausing and resuming an active Goal brings back the same work: status, objective, budget, account and counters are what
   * they were; evidence is gone, an open cursor is retired, and the revision has advanced by two.
   */
  lemma ResumeUndoesPause(s: State, boundary: TurnId, code: string, back: string, now: nat, later: nat, w: Writes)
    requires s.mem.Live? && s.mem.goal.status == Active && s.mem.goal.pendingUsage.None?
    requires s.turn.None? && s.mem.goal.revision < MAX_U64 - 1 && BudgetRemains(s.mem.goal.tokenBudget, s.mem.goal.tokensUsed) && w.first
    ensures var control := Control(boundary, boundary, false);
      var s1 := Transition(s, control, code, PauseNext(s.mem, now), w).0;
      var (s2, reply) := Transition(s1, control, back, ResumeNext(s1.mem, false, later), w);
      && s1.mem.Live? && s1.mem.goal.status == Paused && s1.disk == Some(s1.mem.goal)
      && reply == Done && s2.mem.Live? && s2.disk == Some(s2.mem.goal)
      && SameWork(s.mem.goal, s2.mem.goal) && s2.mem.goal.revision == s.mem.goal.revision + 2
      && !OpenCursor(s2.mem.goal.continuation)
  {
    hide Transition, BudgetRemains, OpenCursor;
    Stores(s, boundary, code, PauseNext(s.mem, now).value, w);
    var s1 := Transition(s, Control(boundary, boundary, false), code, PauseNext(s.mem, now), w).0;
    Stores(s1, boundary, back, ResumeNext(s1.mem, false, later).value, w);
  }
}
