/** Normalization of one provider token report (engine/goal_usage_normalize.go). */
module UsageNormalize {
  import opened Basics

  /** Go's `int` on a 64-bit target. */
  newtype GoInt = x: int | -0x8000_0000_0000_0000 <= x < 0x8000_0000_0000_0000

  datatype Usage = Usage(prompt: GoInt, cached: GoInt, completion: GoInt, total: GoInt, reasoning: GoInt)

  datatype Tokens = Tokens(prompt: nat, cached: nat, completion: nat, reasoning: nat, total: nat, billable: nat)

  datatype UsageError = NilUsage | NegativeCount | CachedExceedsPrompt | ReasoningExceedsCompletion | TotalOverflow

  /** bits.Add64: the 64-bit sum and the carry out of it. */
  function Add64(x: nat, y: nat): (r: (nat, nat))
    requires x <= MAX_U64 && y <= MAX_U64
    ensures r.0 + r.1 * (MAX_U64 + 1) == x + y && r.0 <= MAX_U64
  {
    if x + y <= MAX_U64 then (x + y, 0) else (x + y - (MAX_U64 + 1), 1)
  }

  /** Go's unsigned subtraction, which wraps below zero. */
  function Sub64(x: nat, y: nat): (r: nat)
    requires x <= MAX_U64 && y <= MAX_U64
    ensures r <= MAX_U64 && (r == x - y <==> y <= x)
  {
    if y <= x then x - y else x + (MAX_U64 + 1) - y
  }

  function Normalize(usage: Option<Usage>): (r: Result<Tokens, UsageError>) {
    match usage
    case None => Failure(NilUsage)
    case Some(u) =>
      if u.prompt < 0 || u.cached < 0 || u.completion < 0 || u.total < 0 || u.reasoning < 0 then
        Failure(NegativeCount)
      else
        var prompt, cached, completion := u.prompt as int, u.cached as int, u.completion as int;
        var reasoning, providerTotal := u.reasoning as int, u.total as int;
        if cached > prompt then Failure(CachedExceedsPrompt)
        else if reasoning > completion then Failure(ReasoningExceedsCompletion)
        else
          var (breakdown, carry) := Add64(prompt, completion);
          if carry != 0 then Failure(TotalOverflow)
          else
            var total := if breakdown > providerTotal then breakdown else providerTotal;
            Success(Tokens(prompt, cached, completion, reasoning, total, Sub64(total, cached)))
  }

  /** The token half of transcript.ValidateGoalUsageRecord, in checked 64-bit arithmetic. */
  predicate ValidTokens(t: Tokens) {
    && t.prompt <= MAX_U64 && t.completion <= MAX_U64 && t.total <= MAX_U64 && t.billable <= MAX_U64
    && t.cached <= t.prompt
    && t.reasoning <= t.completion
    && t.prompt + t.completion <= MAX_U64
    && t.total >= t.prompt + t.completion
    && t.total >= t.cached
    && t.billable == t.total - t.cached
  }

  /** What a caller may report: every count present, non-negative and inside its parent count. */
  predicate WellReported(usage: Option<Usage>) {
    && usage.Some?
    && 0 <= usage.value.cached <= usage.value.prompt
    && 0 <= usage.value.reasoning <= usage.value.completion
    && 0 <= usage.value.total
  }

  /**
   * A report is accepted exactly when it is well reported.  The 64-bit carry branch is never taken,
   * the unsigned subtraction never wraps, and every accepted report is one the ledger accepts.
   */
  lemma NormalizeExact(usage: Option<Usage>)
    ensures Normalize(usage).Success? <==> WellReported(usage)
    ensures Normalize(usage) != Failure(TotalOverflow)
    ensures Normalize(usage).Success? ==>
      var t, u := Normalize(usage).value, usage.value;
      && ValidTokens(t)
      && t.prompt == u.prompt as int && t.cached == u.cached as int
      && t.completion == u.completion as int && t.reasoning == u.reasoning as int
      && t.total >= u.total as int && t.total >= t.prompt + t.completion
      && (t.total == u.total as int || t.total == t.prompt + t.completion)
      && t.billable + t.cached == t.total
  {
    if usage.Some? {
      var u := usage.value;
      assert u.prompt as int <= MAX_I64 && u.completion as int <= MAX_I64 && u.total as int <= MAX_I64;
    }
  }
}
