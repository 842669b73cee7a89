/**
 * What a finished turn amounts to, told by what was outside the runner: the
 * caps of its requests, the results of its calls, and why it ended.
 */
module TurnMeanings {
  import opened Outcomes
  import opened Ordering
  import opened Budgets
  import opened Runner

  // ------------------------------------------------------------------ caps

  /** The cap held before request `k`: that of the request before it, or the start's. */
  ghost predicate Held(s: Turn, start: CompletionRequest, k: nat, cap: Option<u64>)
    requires k < |s.sent|
  {
    cap == if k == 0 then start.maxOutputTokens else s.sent[k - 1].maxOutputTokens
  }

  /** Request `k` was sent with the smaller of the cap held and what remained, or what remained if none was held. */
  ghost predicate CappedExactly(s: Turn, start: CompletionRequest, b: ResourceBudget, k: nat, held: Option<u64>)
    requires k < |s.sent| == |s.spent|
  {
    && s.sent[k].maxOutputTokens.Some? && s.spent[k] < b.maxOutputTokens
    && var cap, remaining := s.sent[k].maxOutputTokens.value, b.maxOutputTokens - s.spent[k];
       && cap <= remaining
       && (held.None? ==> cap == remaining)
       && (held.Some? ==> cap <= held.value && (cap == held.value || cap == remaining))
  }

  /**
   * Every cap is the smaller of the one before it and what the budget had left.
   * It is positive unless the turn was started with a cap of nothing.
   */
  lemma CapsExactly(
    env: Environment, s: Turn, start: CompletionRequest, revision: nat, b: ResourceBudget, maxContextTokens: u64,
    outcome: TurnOutcome)
    requires TurnContract(env, s, start, revision, b, maxContextTokens, outcome)
    ensures |s.spent| == |s.sent|
    ensures forall k, held :: 0 <= k < |s.sent| && Held(s, start, k, held) ==> CappedExactly(s, start, b, k, held)
    ensures forall k :: 0 <= k < |s.sent| ==>
      && s.sent[k].maxOutputTokens.Some?
      && (s.sent[k].maxOutputTokens.value > 0 <==> start.maxOutputTokens != Some(0))
  {
    hide Running, Justified, Reckoned, StopsAtOnce, EndsOnTime, AnsweredRight, UsageOf, Overran;
    forall k, held | 0 <= k < |s.sent| && Held(s, start, k, held)
      ensures CappedExactly(s, start, b, k, held)
    {
      assert SentAs(env, s, start, b, maxContextTokens, k);
    }
    CapsArePositive(s, start, b, |s.sent|);
  }

  /**
   * Every request sent fitted the context before it was capped, could be projected, and was capped
   * by what its predecessors' replies had reported.
   */
  lemma SentFits(
    env: Environment, s: Turn, start: CompletionRequest, revision: nat, b: ResourceBudget, maxContextTokens: u64,
    outcome: TurnOutcome, k: nat, held: Option<u64>)
    requires TurnContract(env, s, start, revision, b, maxContextTokens, outcome)
    requires k < |s.sent| && Held(s, start, k, held)
    ensures k < |s.sentAt| && k < |s.spent| && k <= |s.replies|
    ensures var asked := s.sent[k].(maxOutputTokens := held);
      && env.tokens(asked).Some? && env.tokens(asked).value <= maxContextTokens
      && env.projects(s.sentAt[k], s.sent[k])
      && s.spent[k] == UsageOf(s.replies[..k]).outputTokens
  {
    hide Running, Justified, Reckoned, StopsAtOnce, EndsOnTime, AnsweredRight, UsageOf, Overran;
    assert SentAs(env, s, start, b, maxContextTokens, k);
  }

  lemma {:induction false} CapsArePositive(s: Turn, start: CompletionRequest, b: ResourceBudget, n: nat)
    requires n <= |s.sent| == |s.spent|
    requires forall k, held :: 0 <= k < |s.sent| && Held(s, start, k, held) ==> CappedExactly(s, start, b, k, held)
    ensures forall k :: 0 <= k < n ==>
      && s.sent[k].maxOutputTokens.Some?
      && (s.sent[k].maxOutputTokens.value > 0 <==> start.maxOutputTokens != Some(0))
  {
    if n > 0 {
      CapsArePositive(s, start, b, n - 1);
      var held := if n == 1 then start.maxOutputTokens else s.sent[n - 2].maxOutputTokens;
      assert Held(s, start, n - 1, held);
    }
  }

  // --------------------------------------------------------------- results

  /** What the executor answers to call `k`, in the revision the results before it led to. */
  ghost predicate ResultRight(
    env: Environment, tools: set<Name>, call: Call, tick: nat, revision: nat, result: ToolResult)
  {
    var reply := env.execute(tick, call, revision);
    if call.name in tools && reply.Some? then result == reply.value else result.isError && result.callId == call.id
  }

  /** Some successful result names the revision. */
  ghost predicate Reached(results: seq<ToolResult>, revision: nat) {
    exists i :: 0 <= i < |results| && !results[i].isError && Names(results[i].content, revision)
  }

  /** The revision a tool is run with is the largest that the start and the successful results before it name. */
  lemma {:induction false} RevisionIsLargest(revision: nat, results: seq<ToolResult>)
    ensures var r := AllAdvanced(revision, results);
      && revision <= r && (r == revision || Reached(results, r))
      && forall named: nat :: Reached(results, named) ==> named <= r
    decreases |results|
  {
    if results != [] {
      var rest, last := results[..|results| - 1], results[|results| - 1];
      RevisionIsLargest(revision, rest);
      AdvancedIsLargest(AllAdvanced(revision, rest), last.content);
      hide Names, Advanced;
      forall named: nat
        ensures Reached(results, named) <==> Reached(rest, named) || (!last.isError && Names(last.content, named))
      {
        if i :| 0 <= i < |rest| && !rest[i].isError && Names(rest[i].content, named) {
          assert results[i] == rest[i];
        }
        assert results[|results| - 1] == last;
      }
    }
  }

  /**
   * The outcome reports, for each call answered, the executor's result or an
   * error carrying the call's identifier; the usage counts what was answered.
   */
  lemma OutcomeTells(
    env: Environment, s: Turn, start: CompletionRequest, revision: nat, b: ResourceBudget, maxContextTokens: u64,
    outcome: TurnOutcome)
    requires TurnContract(env, s, start, revision, b, maxContextTokens, outcome)
    ensures |outcome.toolResults| == |outcome.toolCalls| == |s.answeredAt| == outcome.usage.toolCalls
    ensures |outcome.toolResults| <= |AllCalls(s.rounds)|
    ensures forall k :: 0 <= k < |outcome.toolResults| ==>
      && outcome.toolCalls[k].isError == outcome.toolResults[k].isError
      && ResultRight(env, start.tools, AllCalls(s.rounds)[k], s.answeredAt[k],
           AllAdvanced(revision, outcome.toolResults[..k]), outcome.toolResults[k])
    ensures |s.sent| <= outcome.usage.modelCalls <= |s.sent| + 1
  {
    hide Justified, StopsAtOnce, EndsOnTime, SentRight, UsageOf, Overran, AllCalls, AllAdvanced, ExecutedBy,
      Reckoned, Conversing, Sourced, Capped;
    forall k | 0 <= k < |s.results|
      ensures outcome.toolCalls[k].isError == outcome.toolResults[k].isError
      ensures ResultRight(env, start.tools, AllCalls(s.rounds)[k], s.answeredAt[k],
        AllAdvanced(revision, outcome.toolResults[..k]), outcome.toolResults[k])
    {
      assert AnswerAt(env, s, start.tools, AllCalls(s.rounds), revision, b, k);
    }
  }

  // ---------------------------------------------------------------- status

  /** The limit a budget status names was hit: by the turn's usage, its next request or the time. */
  ghost predicate LimitHit(
    env: Environment, s: Turn, b: ResourceBudget, maxContextTokens: u64, u: Usage, reason: BudgetReason)
  {
    match reason
    case ModelCalls => u.modelCalls == b.maxModelCalls
    case ToolCalls => u.toolCalls == b.maxToolCalls
    case InputTokens =>
      || u.inputTokens > b.maxInputTokens
      || (env.tokens(s.request).Some? && env.tokens(s.request).value > maxContextTokens)
    case OutputTokens => u.outputTokens >= b.maxOutputTokens
    case TotalTokens => u.totalTokens > b.maxTotalTokens
    case ModelOutputBytes => u.modelOutputBytes > b.maxModelOutputBytes
    case Deadline => env.elapsedMs(s.tick) > b.maxElapsedMs || env.elapsedMs(s.tick + 1) > b.maxElapsedMs
    case MissingTokenUsage => b.requireReportedTokens && u.missingTokenReports > 0
    case _ => false
  }

  /** Why the turn ended as it did. */
  lemma StatusTells(
    env: Environment, s: Turn, start: CompletionRequest, revision: nat, b: ResourceBudget, maxContextTokens: u64,
    outcome: TurnOutcome)
    requires TurnContract(env, s, start, revision, b, maxContextTokens, outcome)
    ensures match outcome.status
      case Completed =>
        if outcome.finalText.Some? then
          && s.replies != [] && var reply := s.replies[|s.replies| - 1];
             reply.Response? && reply.calls == [] && Some(reply.text) == outcome.finalText
        else
          && outcome.toolResults != [] && var last := outcome.toolResults[|outcome.toolResults| - 1];
             && !last.isError
             && exists i :: 0 <= i < |last.content| && last.content[i].Json? && last.content[i].turnBarrier
      case Cancelled =>
        env.cancelled(s.tick) || (s.sent != [] && env.reply(s.tick, s.sent[|s.sent| - 1]).Interrupted?)
      case Failed(Provider) => s.sent != [] && env.reply(s.tick, s.sent[|s.sent| - 1]).ProviderError?
      case Failed(Projection) =>
        || env.tokens(s.request).None?
        || exists cap: u64 :: cap + outcome.usage.outputTokens <= b.maxOutputTokens
             && !env.projects(s.tick, s.request.(maxOutputTokens := Some(cap)))
      case BudgetExhausted(reason) => LimitHit(env, s, b, maxContextTokens, outcome.usage, reason)
    ensures outcome.status != Completed ==> outcome.finalText.None?
  {
    hide Traced, StopsAtOnce, EndsOnTime, Conversing, Sourced, Effects, UsageOf;
    match outcome.status
    case BudgetExhausted(reason) => ChargesTell(env, s, b, reason);
    case Failed(stage) =>
      if stage.Projection? && env.tokens(s.request).Some? {
        var capped := CapFor(s.request, b.maxOutputTokens - s.usage.outputTokens);
        assert capped == s.request.(maxOutputTokens := Some(capped.maxOutputTokens.value));
      }
    case _ =>
  }

  /** A charge that stops has hit the limit it names. */
  lemma ChargesTell(env: Environment, s: Turn, b: ResourceBudget, reason: BudgetReason)
    requires Counted(s, b)
    ensures BeforeModel(s.usage, b, env.elapsedMs(s.tick)) == Charge(s.usage, Some(reason)) ==>
      (reason == Deadline && env.elapsedMs(s.tick) > b.maxElapsedMs)
      || (reason == ModelCalls && s.usage.modelCalls == b.maxModelCalls)
    ensures BeforeTool(s.usage, b, env.elapsedMs(s.tick)) == Charge(s.usage, Some(reason)) ==>
      (reason == Deadline && env.elapsedMs(s.tick) > b.maxElapsedMs)
      || (reason == ToolCalls && s.usage.toolCalls == b.maxToolCalls)
    ensures Overran(env, s, b, reason) ==>
      (reason == Deadline && env.elapsedMs(s.tick + 1) > b.maxElapsedMs) || Beyond(s.usage, b, reason)
  {
    hide UsageOf, Reckoned;
  }
}
