/**
 * One agent turn: ask the model, run the tools it calls, feed the results
 * back, until the model stops calling, a tool ends the turn, or a limit hits.
 */
module Runner {
  import opened Outcomes
  import opened Ordering
  import opened Budgets

  type EventId = nat
  type Name = nat

  datatype Call = Call(id: nat, name: Name)

  /** JSON content as far as the runner reads it; an identifier that does not parse is `None`. */
  datatype Content =
    | OtherContent
    | Json(revision: Option<nat>, eventIds: Option<seq<Option<EventId>>>, eventId: Option<EventId>, turnBarrier: bool)

  datatype ToolResult = ToolResult(callId: nat, content: seq<Content>, isError: bool)

  datatype CallOutcome = CallOutcome(callId: nat, name: Name, isError: bool)

  datatype Message =
    | Prior(text: nat)
    | Assistant(calls: seq<Call>)
    | ToolMessage(result: ToolResult)

  datatype CompletionRequest = CompletionRequest(tools: set<Name>, messages: seq<Message>, maxOutputTokens: Option<u64>)

  datatype Reply =
    | ProviderError
    | Interrupted                    // cancelled while waiting for the model
    | Response(text: nat, textBytes: u64, calls: seq<Call>, report: Option<TokenReport>)

  /** Everything outside the runner, indexed by how often it was consulted. */
  datatype Environment = Environment(
    cancelled: nat -> bool, elapsedMs: nat -> u64, tokens: CompletionRequest -> Option<u64>,
    projects: (nat, CompletionRequest) -> bool, reply: (nat, CompletionRequest) -> Reply,
    execute: (nat, Call, nat) -> Option<ToolResult>)

  datatype TurnFailureStage = Projection | Provider

  datatype TurnStatus =
    | Completed
    | Cancelled
    | BudgetExhausted(reason: BudgetReason)
    | Failed(stage: TurnFailureStage)

  datatype TurnOutcome = TurnOutcome(
    status: TurnStatus, finalText: Option<nat>, toolResults: seq<ToolResult>, toolCalls: seq<CallOutcome>,
    committedEvents: seq<EventId>, usage: Usage)

  // --------------------------------------------------------- tool results

  const ERROR_CODE: Content := Json(None, None, None, false)

  function ErrorResult(call: Call): ToolResult {
    ToolResult(call.id, [ERROR_CODE], true)
  }

  function PushEvent(events: seq<EventId>, e: EventId): seq<EventId> {
    if e in events then events else events + [e]
  }

  function PushParsed(events: seq<EventId>, ids: seq<Option<EventId>>): seq<EventId>
    decreases |ids|
  {
    if ids == [] then events
    else
      var before, last := PushParsed(events, ids[..|ids| - 1]), ids[|ids| - 1];
      if last.Some? then PushEvent(before, last.value) else before
  }

  /** `collect_events` on the first contents of a result. */
  function Collected(events: seq<EventId>, content: seq<Content>): seq<EventId>
    decreases |content|
  {
    if content == [] then events
    else
      var before, last := Collected(events, content[..|content| - 1]), content[|content| - 1];
      if !last.Json? then before
      else if last.eventIds.Some? then PushParsed(before, last.eventIds.value)
      else if last.eventId.Some? then PushEvent(before, last.eventId.value)
      else before
  }

  /** `advance_tool_revision` on the first contents of a result. */
  function Advanced(revision: nat, content: seq<Content>): (r: nat)
    ensures revision <= r
    decreases |content|
  {
    if content == [] then revision
    else
      var before, last := Advanced(revision, content[..|content| - 1]), content[|content| - 1];
      if last.Json? && last.revision.Some? && last.revision.value > before then last.revision.value else before
  }

  method CollectEvents(result: ToolResult, events: seq<EventId>) returns (r: seq<EventId>)
    ensures r == Collected(events, result.content)
  {
    r := events;
    for i := 0 to |result.content|
      invariant r == Collected(events, result.content[..i])
    {
      assert result.content[..i + 1][..i] == result.content[..i];
      var content := result.content[i];
      if content.Json? {
        if content.eventIds.Some? {
          var ids, before := content.eventIds.value, r;
          for j := 0 to |ids|
            invariant r == PushParsed(before, ids[..j])
          {
            assert ids[..j + 1][..j] == ids[..j];
            if ids[j].Some? {
              r := PushEvent(r, ids[j].value);
            }
          }
          assert ids[..|ids|] == ids;
        } else if content.eventId.Some? {
          r := PushEvent(r, content.eventId.value);
        }
      }
    }
    assert result.content[..|result.content|] == result.content;
  }

  /** Some content names the revision. */
  ghost predicate Names(content: seq<Content>, revision: nat) {
    exists i :: 0 <= i < |content| && content[i].Json? && content[i].revision == Some(revision)
  }

  lemma {:induction false} AdvancedIsLargest(revision: nat, content: seq<Content>)
    ensures var r := Advanced(revision, content);
      && revision <= r && (r == revision || Names(content, r))
      && forall named: nat :: Names(content, named) ==> named <= r
    decreases |content|
  {
    if content != [] {
      var rest, last := content[..|content| - 1], content[|content| - 1];
      AdvancedIsLargest(revision, rest);
      forall named: nat
        ensures Names(content, named) <==> Names(rest, named) || (last.Json? && last.revision == Some(named))
      {
        if i :| 0 <= i < |rest| && rest[i].Json? && rest[i].revision == Some(named) {
          assert content[i] == rest[i];
        }
        assert content[|content| - 1] == last;
      }
    }
  }

  /** The largest of the revision held and those the result names. */
  method AdvanceToolRevision(result: ToolResult, revision: nat) returns (r: nat)
    ensures r == Advanced(revision, result.content)
    ensures revision <= r && (r == revision || Names(result.content, r))
    ensures forall named: nat :: Names(result.content, named) ==> named <= r
  {
    AdvancedIsLargest(revision, result.content);
    r := revision;
    for i := 0 to |result.content|
      invariant r == Advanced(revision, result.content[..i])
    {
      assert result.content[..i + 1][..i] == result.content[..i];
      var content := result.content[i];
      if content.Json? && content.revision.Some? && content.revision.value > r {
        r := content.revision.value;
      }
    }
    assert result.content[..|result.content|] == result.content;
  }

  predicate TurnBarrier(result: ToolResult) {
    exists i :: 0 <= i < |result.content| && result.content[i].Json? && result.content[i].turnBarrier
  }

  /** The events of all successful results, each once, in order of first appearance. */
  function AllCollected(results: seq<ToolResult>): seq<EventId> {
    if results == [] then []
    else
      var before, last := AllCollected(results[..|results| - 1]), results[|results| - 1];
      if last.isError then before else Collected(before, last.content)
  }

  /** The revision after all successful results. */
  function AllAdvanced(revision: nat, results: seq<ToolResult>): (r: nat)
    ensures revision <= r
    decreases |results|
  {
    if results == [] then revision
    else
      var before, last := AllAdvanced(revision, results[..|results| - 1]), results[|results| - 1];
      if last.isError then before else Advanced(before, last.content)
  }

  /** An event the content mentions. */
  ghost predicate Mentions(content: seq<Content>, e: EventId) {
    exists i :: 0 <= i < |content| && content[i].Json? && MentionedIn(content[i], e)
  }

  ghost predicate MentionedIn(c: Content, e: EventId)
    requires c.Json?
  {
    if c.eventIds.Some? then Some(e) in c.eventIds.value else c.eventId == Some(e)
  }

  lemma {:induction false} ParsedFacts(events: seq<EventId>, ids: seq<Option<EventId>>)
    ensures Distinct(events) ==> Distinct(PushParsed(events, ids))
    ensures forall e :: e in PushParsed(events, ids) <==> e in events || Some(e) in ids
    decreases |ids|
  {
    if ids != [] {
      ParsedFacts(events, ids[..|ids| - 1]);
      assert ids == ids[..|ids| - 1] + [ids[|ids| - 1]];
    }
  }

  lemma {:induction false} CollectedFacts(events: seq<EventId>, content: seq<Content>)
    ensures Distinct(events) ==> Distinct(Collected(events, content))
    ensures forall e :: e in Collected(events, content) <==> e in events || Mentions(content, e)
    decreases |content|
  {
    if content != [] {
      var rest, last := content[..|content| - 1], content[|content| - 1];
      CollectedFacts(events, rest);
      if last.Json? && last.eventIds.Some? {
        ParsedFacts(Collected(events, rest), last.eventIds.value);
      }
      forall e
        ensures Mentions(content, e) <==> Mentions(rest, e) || (last.Json? && MentionedIn(last, e))
      {
        if i :| 0 <= i < |rest| && rest[i].Json? && MentionedIn(rest[i], e) {
          assert content[i] == rest[i];
        }
        assert content[|content| - 1] == last;
      }
    }
  }

  /** The committed events of a turn: exactly those its successful results mention, without duplicates. */
  lemma {:induction false} CommittedEventsExact(results: seq<ToolResult>)
    ensures Distinct(AllCollected(results))
    ensures forall e :: e in AllCollected(results) <==> Reports(results, e)
    decreases |results|
  {
    if results != [] {
      var rest, last := results[..|results| - 1], results[|results| - 1];
      CommittedEventsExact(rest);
      CollectedFacts(AllCollected(rest), last.content);
      forall e
        ensures Reports(results, e) <==> Reports(rest, e) || (!last.isError && Mentions(last.content, e))
      {
        if i :| 0 <= i < |rest| && !rest[i].isError && Mentions(rest[i].content, e) {
          assert results[i] == rest[i];
        }
        assert results[|results| - 1] == last;
      }
    }
  }

  ghost predicate Reports(results: seq<ToolResult>, e: EventId) {
    exists i :: 0 <= i < |results| && !results[i].isError && Mentions(results[i].content, e)
  }

  // -------------------------------------------------------- the invariant

  /** The calls of one response and the results they have got so far. */
  datatype Round = Round(calls: seq<Call>, results: seq<ToolResult>)

  /** A call handed to the executor, with the revision of its context. */
  datatype Execution = Execution(call: Call, revision: nat)

  /** The runner's variables; those after `tick` only record what happened, and when. */
  datatype Turn = Turn(
    request: CompletionRequest, revision: nat, usage: Usage, results: seq<ToolResult>, outcomes: seq<CallOutcome>,
    events: seq<EventId>, tick: nat,
    sent: seq<CompletionRequest>, sentAt: seq<nat>, spent: seq<u64>, replies: seq<Reply>, rounds: seq<Round>,
    answeredAt: seq<nat>, executed: seq<Execution>)

  function ToolMessages(results: seq<ToolResult>): seq<Message> {
    seq(|results|, i requires 0 <= i < |results| => ToolMessage(results[i]))
  }

  /** Each response followed by one message per result, in call order. */
  function Talk(rounds: seq<Round>): seq<Message> {
    if rounds == [] then []
    else
      var last := rounds[|rounds| - 1];
      Talk(rounds[..|rounds| - 1]) + [Assistant(last.calls)] + ToolMessages(last.results)
  }

  function AllResults(rounds: seq<Round>): seq<ToolResult> {
    if rounds == [] then [] else AllResults(rounds[..|rounds| - 1]) + rounds[|rounds| - 1].results
  }

  /** Executors answer the call they were given. */
  ghost predicate Faithful(env: Environment) {
    forall tick, call, revision :: env.execute(tick, call, revision).Some? ==>
      env.execute(tick, call, revision).value.callId == call.id
  }

  /** What executing a call gives: the executor's result, or an error for its failure. */
  function ResultOf(env: Environment, tick: nat, call: Call, revision: nat): ToolResult {
    var reply := env.execute(tick, call, revision);
    if reply.Some? then reply.value else ErrorResult(call)
  }

  ghost predicate Produced(env: Environment, call: Call, result: ToolResult) {
    exists tick, revision :: result == ResultOf(env, tick, call, revision)
  }

  /** Results answer the round's first calls, in order; a tool not offered is answered by an error. */
  ghost predicate Answers(env: Environment, tools: set<Name>, round: Round) {
    && |round.results| <= |round.calls|
    && (forall i :: 0 <= i < |round.results| ==>
          && (if round.calls[i].name in tools then Produced(env, round.calls[i], round.results[i])
              else round.results[i] == ErrorResult(round.calls[i]))
          && (Faithful(env) ==> round.results[i].callId == round.calls[i].id))
  }

  /** The calls of a round are those of the model's reply to the request sent for it. */
  ghost predicate FromModel(env: Environment, sent: CompletionRequest, reply: Reply, round: Round) {
    && reply.Response? && round.calls == reply.calls
    && exists tick :: env.reply(tick, sent) == reply
  }

  predicate Complete(round: Round) {
    |round.results| == |round.calls|
  }

  ghost predicate Counted(s: Turn, b: ResourceBudget) {
    && s.usage.modelCalls <= b.maxModelCalls && |s.sent| <= s.usage.modelCalls <= |s.sent| + 1
    && s.usage.toolCalls <= b.maxToolCalls && |s.executed| <= |s.results| == s.usage.toolCalls
  }

  /** Each request's output cap is positive, at most what remained, and no higher than the one before. */
  ghost predicate Capped(s: Turn, start: CompletionRequest, b: ResourceBudget) {
    && |s.spent| == |s.sent|
    && (forall k :: 0 <= k < |s.sent| ==>
          && s.sent[k].maxOutputTokens.Some? && s.sent[k].maxOutputTokens.value + s.spent[k] <= b.maxOutputTokens
          && (start.maxOutputTokens.Some? ==> s.sent[k].maxOutputTokens.value <= start.maxOutputTokens.value))
    && (forall j, k :: 0 <= j < k < |s.sent| ==>
          s.sent[k].maxOutputTokens.value <= s.sent[j].maxOutputTokens.value && s.spent[j] <= s.spent[k])
    && (forall k :: 0 <= k < |s.sent| ==> s.spent[k] <= s.usage.outputTokens)
    && (if s.sent == [] then s.request.maxOutputTokens == start.maxOutputTokens
        else s.request.maxOutputTokens == s.sent[|s.sent| - 1].maxOutputTokens)
  }

  /** The messages are the start's followed by the rounds, and each sent request held the rounds before it, complete. */
  ghost predicate Conversing(env: Environment, s: Turn, start: CompletionRequest) {
    && s.request.tools == start.tools
    && s.request.messages == start.messages + Talk(s.rounds)
    && s.results == AllResults(s.rounds)
    && (forall k :: 0 <= k < |s.rounds| ==> Answers(env, start.tools, s.rounds[k]))
    && |s.rounds| <= |s.sent| <= |s.rounds| + 1
    && (forall k :: 0 <= k < |s.sent| ==> SentAfter(s.sent[k], start, s.rounds, k))
  }

  /** Each round's calls are those of the model's reply to the request sent for it. */
  ghost predicate Sourced(env: Environment, s: Turn) {
    && |s.replies| == |s.rounds| <= |s.sent|
    && (forall k :: 0 <= k < |s.rounds| ==> FromModel(env, s.sent[k], s.replies[k], s.rounds[k]))
  }

  ghost predicate SentAfter(sent: CompletionRequest, start: CompletionRequest, rounds: seq<Round>, k: nat) {
    && k <= |rounds|
    && sent.tools == start.tools && sent.messages == start.messages + Talk(rounds[..k])
    && (forall j :: 0 <= j < k ==> Complete(rounds[j]))
  }

  /** Only offered tools ran, with revisions that never fell; events and outcomes follow the results. */
  ghost predicate Effects(s: Turn, start: CompletionRequest, revision: nat) {
    && (forall k :: 0 <= k < |s.executed| ==>
      s.executed[k].call.name in start.tools && s.executed[k].revision <= s.revision)
    && (forall j, k :: 0 <= j < k < |s.executed| ==> s.executed[j].revision <= s.executed[k].revision)
    && s.events == AllCollected(s.results) && s.revision == AllAdvanced(revision, s.results)
    && |s.outcomes| == |s.results|
    && (forall k :: 0 <= k < |s.outcomes| ==> s.outcomes[k].isError == s.results[k].isError)
  }

  ghost predicate Running(env: Environment, s: Turn, start: CompletionRequest, revision: nat, b: ResourceBudget) {
    && Counted(s, b) && Capped(s, start, b) && Conversing(env, s, start) && Sourced(env, s)
    && Effects(s, start, revision)
  }

  /** What the replies report, added up. */
  function UsageOf(replies: seq<Reply>): Usage {
    if replies == [] then NO_USAGE
    else
      var before, last := UsageOf(replies[..|replies| - 1]), replies[|replies| - 1];
      if last.Response? then Spending(before, last.report, last.textBytes) else before
  }

  /** The usage the replies so far account for, with the calls as counted. */
  function Reckoned(s: Turn): Usage {
    UsageOf(s.replies).(modelCalls := s.usage.modelCalls, toolCalls := s.usage.toolCalls)
  }

  /** Every call has its result; the next request may be sent. */
  ghost predicate Settled(s: Turn) {
    |s.sent| == |s.rounds| && forall k :: 0 <= k < |s.rounds| ==> Complete(s.rounds[k])
  }

  // ------------------------------------------------ why a turn may end

  /** The last request's response was charged beyond a limit. */
  ghost predicate Overran(env: Environment, s: Turn, b: ResourceBudget, reason: BudgetReason) {
    && s.sent != []
    && var reply := env.reply(s.tick, s.sent[|s.sent| - 1]);
       && reply.Response?
       && AfterResponse(Reckoned(s), b, reply.report, reply.textBytes, env.elapsedMs(s.tick + 1)) == Charge(s.usage,
         Some(reason))
  }

  /** The status is what the last observation calls for. */
  ghost predicate Justified(
    env: Environment, s: Turn, b: ResourceBudget, maxContextTokens: u64, status: TurnStatus, text: Option<nat>)
  {
    match status
    case Cancelled =>
      env.cancelled(s.tick) || (s.sent != [] && env.reply(s.tick, s.sent[|s.sent| - 1]).Interrupted?)
    case Failed(Provider) =>
      s.sent != [] && env.reply(s.tick, s.sent[|s.sent| - 1]).ProviderError?
    case Failed(Projection) =>
      || env.tokens(s.request).None?
      || (s.usage.outputTokens < b.maxOutputTokens
        && !env.projects(s.tick, CapFor(s.request, b.maxOutputTokens - s.usage.outputTokens)))
    case BudgetExhausted(reason) =>
      || (reason == InputTokens && env.tokens(s.request).Some? && env.tokens(s.request).value > maxContextTokens)
      || BeforeModel(s.usage, b, env.elapsedMs(s.tick)) == Charge(s.usage, Some(reason))
      || BeforeTool(s.usage, b, env.elapsedMs(s.tick)) == Charge(s.usage, Some(reason))
      || (reason == OutputTokens && s.usage.outputTokens == b.maxOutputTokens)
      || Overran(env, s, b, reason)
    case Completed =>
      if text.Some? then
        s.replies != [] && s.replies[|s.replies| - 1].Response?
        && s.replies[|s.replies| - 1].text == text.value && s.replies[|s.replies| - 1].calls == []
      else
        s.results != [] && !s.results[|s.results| - 1].isError && TurnBarrier(s.results[|s.results| - 1])
  }

  // ------------------------------------------- every step a run may take

  /** All calls the model made, in order. */
  function AllCalls(rounds: seq<Round>): seq<Call> {
    if rounds == [] then [] else AllCalls(rounds[..|rounds| - 1]) + rounds[|rounds| - 1].calls
  }

  /** The cap of the request before its k-th sending. */
  function CapBefore(start: CompletionRequest, sent: seq<CompletionRequest>, k: nat): Option<u64>
    requires k <= |sent|
  {
    if k == 0 then start.maxOutputTokens else sent[k - 1].maxOutputTokens
  }

  /** Every check before the model call let the request through, and it was capped at what remained. */
  predicate Cleared(
    env: Environment, sent: CompletionRequest, cap: Option<u64>, spent: u64, tick: nat, b: ResourceBudget,
    maxContextTokens: u64)
  {
    var asked := sent.(maxOutputTokens := cap);
    && !env.cancelled(tick) && env.projects(tick, sent) && env.elapsedMs(tick) <= b.maxElapsedMs
    && env.tokens(asked).Some? && env.tokens(asked).value <= maxContextTokens
    && spent < b.maxOutputTokens && sent == CapFor(asked, b.maxOutputTokens - spent)
  }

  /** The reply to a request, charged to what the earlier replies had spent without exceeding any limit. */
  predicate Accepted(
    env: Environment, sent: CompletionRequest, tick: nat, earlier: seq<Reply>, reply: Reply, b: ResourceBudget)
  {
    && reply == env.reply(tick, sent) && reply.Response?
    && AfterResponse(UsageOf(earlier), b, reply.report, reply.textBytes, env.elapsedMs(tick + 1)).stop.None?
  }

  predicate SentAs(
    env: Environment, s: Turn, start: CompletionRequest, b: ResourceBudget, maxContextTokens: u64, k: nat)
    requires k < |s.sent| == |s.sentAt| == |s.spent| && k <= |s.replies|
  {
    && Cleared(env, s.sent[k], CapBefore(start, s.sent, k), s.spent[k], s.sentAt[k], b, maxContextTokens)
    && s.spent[k] == UsageOf(s.replies[..k]).outputTokens
  }

  /** Requests were sent only past every check, and every recorded reply went through. */
  ghost predicate SentRight(
    env: Environment, s: Turn, start: CompletionRequest, b: ResourceBudget, maxContextTokens: u64)
  {
    && |s.spent| == |s.sentAt| == |s.sent| && |s.replies| <= |s.sent| <= |s.replies| + 1
    && (forall k :: 0 <= k < |s.sent| ==> SentAs(env, s, start, b, maxContextTokens, k))
    && (forall k :: 0 <= k < |s.replies| ==> Accepted(env, s.sent[k], s.sentAt[k], s.replies[..k], s.replies[k], b))
  }

  /** The result of one call, made when neither cancellation nor the deadline forbade it. */
  predicate AnsweredAs(
    env: Environment, tools: set<Name>, call: Call, revision: nat, tick: nat, b: ResourceBudget, result: ToolResult,
    outcome: CallOutcome)
  {
    && !env.cancelled(tick) && env.elapsedMs(tick) <= b.maxElapsedMs
    && result == (if call.name in tools then ResultOf(env, tick, call, revision) else ErrorResult(call))
    && outcome == CallOutcome(call.id, call.name, result.isError)
  }

  /** The executions of answered calls: the offered ones, each with the revision its predecessors' results led to. */
  function ExecutedBy(tools: set<Name>, revision: nat, calls: seq<Call>, results: seq<ToolResult>): seq<Execution>
    requires |calls| == |results|
    decreases |results|
  {
    if results == [] then []
    else
      var n := |results| - 1;
      var before := ExecutedBy(tools, revision, calls[..n], results[..n]);
      if calls[n].name in tools then before + [Execution(calls[n], AllAdvanced(revision, results[..n]))] else before
  }

  predicate AnswerAt(
    env: Environment, s: Turn, tools: set<Name>, calls: seq<Call>, revision: nat, b: ResourceBudget, k: nat)
    requires k < |s.results| == |s.outcomes| == |s.answeredAt| <= |calls|
  {
    AnsweredAs(env, tools, calls[k], AllAdvanced(revision, s.results[..k]), s.answeredAt[k], b, s.results[k],
      s.outcomes[k])
  }

  /** The model's calls were answered in order from the first, each in the context its predecessors left. */
  ghost predicate AnsweredRight(env: Environment, s: Turn, start: CompletionRequest, revision: nat, b: ResourceBudget) {
    var calls, n := AllCalls(s.rounds), |s.results|;
    && |s.outcomes| == |s.answeredAt| == n <= |calls|
    && (forall k :: 0 <= k < n ==> AnswerAt(env, s, start.tools, calls, revision, b, k))
    && s.executed == ExecutedBy(start.tools, revision, calls[..n], s.results)
  }

  ghost predicate Traced(
    env: Environment, s: Turn, start: CompletionRequest, revision: nat, b: ResourceBudget, maxContextTokens: u64)
  {
    SentRight(env, s, start, b, maxContextTokens) && AnsweredRight(env, s, start, revision, b)
  }

  // ------------------------------------------------------ the turn's clock

  /** The moments the rounds took: one to send each request, one for its response, one for each answer. */
  ghost function Elapsed(rounds: seq<Round>): nat {
    if rounds == [] then 0 else Elapsed(rounds[..|rounds| - 1]) + 2 + |rounds[|rounds| - 1].results|
  }

  ghost function AnswerTime(before: seq<Round>, i: nat): nat {
    Elapsed(before) + 3 + i
  }

  /** The moments of the answers, each right after the one before it. */
  ghost function AnswerTimes(rounds: seq<Round>): seq<nat> {
    if rounds == [] then []
    else
      var before, n := rounds[..|rounds| - 1], |rounds[|rounds| - 1].results|;
      AnswerTimes(before) + seq(n, i requires 0 <= i < n => AnswerTime(before, i))
  }

  /** Every request and every answer has its own moment, fixed by the log before it. */
  ghost predicate Clocked(rounds: seq<Round>, sentAt: seq<nat>, answeredAt: seq<nat>) {
    && |rounds| <= |sentAt| <= |rounds| + 1
    && (forall k :: 0 <= k < |sentAt| ==> sentAt[k] == Elapsed(rounds[..k]) + 1)
    && answeredAt == AnswerTimes(rounds)
  }

  ghost predicate OnTime(s: Turn) {
    Clocked(s.rounds, s.sentAt, s.answeredAt) && |s.sentAt| == |s.sent|
  }

  /** No moment has passed but those of the log. */
  ghost predicate AtRest(s: Turn) {
    OnTime(s) && s.tick == Elapsed(s.rounds)
  }

  /** At most one moment has passed since, the last: a check that failed there, or a request without a response. */
  ghost predicate EndsOnTime(env: Environment, s: Turn, status: TurnStatus) {
    && OnTime(s) && Elapsed(s.rounds) <= s.tick <= Elapsed(s.rounds) + 1
    && (|s.sent| > |s.rounds| ==> s.tick == Elapsed(s.rounds) + 1)
    && (|s.sent| == |s.rounds| && s.tick > Elapsed(s.rounds) && env.cancelled(s.tick) ==> status.Cancelled?)
  }

  lemma ClockSends(rounds: seq<Round>, sentAt: seq<nat>, answeredAt: seq<nat>)
    requires Clocked(rounds, sentAt, answeredAt) && |sentAt| == |rounds|
    ensures Clocked(rounds, sentAt + [Elapsed(rounds) + 1], answeredAt)
  {
    assert rounds[..|rounds|] == rounds;
  }

  /** The last request awaits its response. */
  ghost predicate Waiting(s: Turn) {
    OnTime(s) && s.tick == Elapsed(s.rounds) + 1 && |s.sent| == |s.rounds| + 1
  }

  /** A failing check is the turn's last moment. */
  lemma ClockFails(env: Environment, s: Turn, ended: Turn, status: TurnStatus)
    requires AtRest(s) && |s.sent| == |s.rounds| && ended.tick == s.tick + 1
    requires ended.rounds == s.rounds && ended.sent == s.sent
    requires ended.sentAt == s.sentAt && ended.answeredAt == s.answeredAt
    requires env.cancelled(ended.tick) ==> status.Cancelled?
    ensures EndsOnTime(env, ended, status)
  {
    hide Clocked, Elapsed;
  }

  lemma ClockStops(env: Environment, s: Turn, ended: Turn, status: TurnStatus)
    requires Waiting(s) && ended.tick == s.tick && ended.rounds == s.rounds && ended.sent == s.sent
    requires ended.sentAt == s.sentAt && ended.answeredAt == s.answeredAt
    ensures EndsOnTime(env, ended, status)
  {
    hide Clocked, Elapsed;
  }

  lemma ClockResponds(env: Environment, s: Turn, longer: Turn, calls: seq<Call>)
    requires Waiting(s) && longer.tick == s.tick + 1
    requires longer.rounds == s.rounds + [Round(calls, [])] && longer.sent == s.sent
    requires longer.sentAt == s.sentAt && longer.answeredAt == s.answeredAt
    ensures AtRest(longer) && forall status :: EndsOnTime(env, longer, status)
  {
    assert longer.rounds[..|s.rounds|] == s.rounds;
    assert forall k :: 0 <= k <= |s.rounds| ==> longer.rounds[..k] == s.rounds[..k];
  }

  lemma ClockAnswers(env: Environment, s: Turn, longer: Turn, result: ToolResult)
    requires AtRest(s) && |s.sent| == |s.rounds| > 0 && longer.tick == s.tick + 1
    requires longer.rounds == Grown(s.rounds, result) && longer.sent == s.sent
    requires longer.sentAt == s.sentAt && longer.answeredAt == s.answeredAt + [longer.tick]
    ensures AtRest(longer) && forall status :: EndsOnTime(env, longer, status)
  {
    ClockAnswered(s.rounds, s.sentAt, s.answeredAt, result);
    hide Clocked, Elapsed;
  }

  lemma ClockAnswered(rounds: seq<Round>, sentAt: seq<nat>, answeredAt: seq<nat>, result: ToolResult)
    requires Clocked(rounds, sentAt, answeredAt) && |sentAt| == |rounds| > 0
    ensures var longer := Grown(rounds, result);
      && Clocked(longer, sentAt, answeredAt + [Elapsed(rounds) + 1])
      && Elapsed(longer) == Elapsed(rounds) + 1
  {
    var n, longer := |rounds| - 1, Grown(rounds, result);
    GrownTimes(rounds, result);
    hide Elapsed, AnswerTimes;
    forall k | 0 <= k < |sentAt|
      ensures sentAt[k] == Elapsed(longer[..k]) + 1
    {
      assert longer[..k] == rounds[..k];
    }
  }

  /** One more answer takes one more moment. */
  lemma GrownTimes(rounds: seq<Round>, result: ToolResult)
    requires rounds != []
    ensures Elapsed(Grown(rounds, result)) == Elapsed(rounds) + 1
    ensures AnswerTimes(Grown(rounds, result)) == AnswerTimes(rounds) + [Elapsed(rounds) + 1]
  {
    var longer := Grown(rounds, result);
    assert longer[..|rounds| - 1] == rounds[..|rounds| - 1];
  }

  predicate EndsTurn(result: ToolResult) {
    !result.isError && TurnBarrier(result)
  }

  /** Nothing seen so far ends the turn. */
  ghost predicate Going(s: Turn) {
    && (forall k :: 0 <= k < |s.results| ==> !EndsTurn(s.results[k]))
    && (forall k :: 0 <= k < |s.rounds| ==> s.rounds[k].calls != [])
  }

  /** A barrier, or a response without calls, completed the turn there and then. */
  ghost predicate StopsAtOnce(s: Turn, status: TurnStatus, text: Option<nat>) {
    && (forall k :: 0 <= k < |s.results| && EndsTurn(s.results[k]) ==>
          k == |s.results| - 1 && status == Completed && text.None? && |s.sent| == |s.rounds|)
    && (forall k :: 0 <= k < |s.rounds| && s.rounds[k].calls == [] ==>
          k == |s.rounds| - 1 && status == Completed && text.Some? && |s.sent| == |s.rounds|)
  }

  lemma SameTrace(
    env: Environment, a: Turn, c: Turn, start: CompletionRequest, revision: nat, b: ResourceBudget,
    maxContextTokens: u64)
    requires Traced(env, a, start, revision, b, maxContextTokens)
    requires c.sent == a.sent && c.sentAt == a.sentAt && c.spent == a.spent && c.replies == a.replies
      && c.rounds == a.rounds
    requires c.results == a.results && c.outcomes == a.outcomes && c.answeredAt == a.answeredAt
      && c.executed == a.executed
    ensures Traced(env, c, start, revision, b, maxContextTokens)
  {
    SameSending(env, a, c, start, b, maxContextTokens);
    SameAnswers(env, a, c, start, revision, b);
    hide SentRight, AnsweredRight;
  }

  lemma SameSending(
    env: Environment, a: Turn, c: Turn, start: CompletionRequest, b: ResourceBudget, maxContextTokens: u64)
    requires SentRight(env, a, start, b, maxContextTokens)
    requires c.sent == a.sent && c.sentAt == a.sentAt && c.spent == a.spent && c.replies == a.replies
    ensures SentRight(env, c, start, b, maxContextTokens)
  {
    hide Cleared, Accepted, UsageOf, CapBefore;
    assert forall k :: 0 <= k < |a.sent| ==>
      SentAs(env, a, start, b, maxContextTokens, k) == SentAs(env, c, start, b, maxContextTokens, k);
  }

  /** More calls leave the answers to the first ones right. */
  lemma SameAnswers(env: Environment, a: Turn, c: Turn, start: CompletionRequest, revision: nat, b: ResourceBudget)
    requires AnsweredRight(env, a, start, revision, b)
    requires c.results == a.results && c.outcomes == a.outcomes && c.answeredAt == a.answeredAt
      && c.executed == a.executed
    requires |AllCalls(c.rounds)| >= |AllCalls(a.rounds)|
      && AllCalls(c.rounds)[..|AllCalls(a.rounds)|] == AllCalls(a.rounds)
    ensures AnsweredRight(env, c, start, revision, b)
  {
    hide AllCalls, AllAdvanced, AnsweredAs, ExecutedBy;
    var calls, more := AllCalls(a.rounds), AllCalls(c.rounds);
    forall k | 0 <= k < |c.results|
      ensures AnswerAt(env, c, start.tools, more, revision, b, k)
    {
      assert AnswerAt(env, a, start.tools, calls, revision, b, k);
      assert more[k] == calls[k];
    }
    assert more[..|c.results|] == calls[..|a.results|];
  }

  /** What the trace needs of the invariant. */
  lemma RunningTells(env: Environment, s: Turn, start: CompletionRequest, revision: nat, b: ResourceBudget)
    requires Running(env, s, start, revision, b)
    ensures |s.replies| == |s.rounds| <= |s.sent| && s.request.maxOutputTokens == CapBefore(start, s.sent, |s.sent|)
    ensures s.results == AllResults(s.rounds) && s.revision == AllAdvanced(revision, s.results)
  {
    hide AllResults, AllAdvanced, Answers, FromModel, SentAfter, Talk, AllCollected;
  }

  function Outcome(s: Turn, status: TurnStatus, text: Option<nat>): TurnOutcome {
    TurnOutcome(status, text, s.results, s.outcomes, s.events, s.usage)
  }

  function StartTurn(start: CompletionRequest, revision: nat): Turn {
    Turn(start, revision, NO_USAGE, [], [], [], 0, [], [], [], [], [], [], [])
  }

  // --------------------------------------------------------------- asking

  function CapFor(request: CompletionRequest, remaining: u64): CompletionRequest {
    var cap := if request.maxOutputTokens.Some? then request.maxOutputTokens.value else remaining;
    request.(maxOutputTokens := Some(Smaller(cap, remaining)))
  }

  /** The turn with its request capped and sent. */
  function Sent(s: Turn, remaining: u64): Turn {
    var request := CapFor(s.request, remaining);
    s.(request := request, sent := s.sent + [request], sentAt := s.sentAt + [s.tick],
      spent := s.spent + [s.usage.outputTokens])
  }

  lemma SendingCaps(s: Turn, start: CompletionRequest, b: ResourceBudget, remaining: u64)
    requires Capped(s, start, b) && remaining == b.maxOutputTokens - s.usage.outputTokens
    ensures Capped(Sent(s, remaining), start, b)
  {
    var s' := Sent(s, remaining);
    var cap := CapFor(s.request, remaining).maxOutputTokens;
    assert cap.Some? && cap.value <= remaining;
    hide CapFor;
    assert forall k :: 0 <= k < |s.sent| ==> s'.sent[k] == s.sent[k] && s'.spent[k] == s.spent[k];
  }

  /** A request that passes every check extends the trace. */
  lemma SendingTraces(
    env: Environment, s: Turn, start: CompletionRequest, revision: nat, b: ResourceBudget, maxContextTokens: u64,
    u: Usage, remaining: u64)
    requires Traced(env, s, start, revision, b, maxContextTokens) && |s.replies| == |s.sent|
    requires s.request.maxOutputTokens == CapBefore(start, s.sent, |s.sent|)
    requires u.outputTokens == UsageOf(s.replies).outputTokens && remaining == b.maxOutputTokens - u.outputTokens > 0
    requires !env.cancelled(s.tick) && env.projects(s.tick, CapFor(s.request, remaining))
      && env.elapsedMs(s.tick) <= b.maxElapsedMs
    requires env.tokens(s.request).Some? && env.tokens(s.request).value <= maxContextTokens
    ensures Traced(env, Sent(s.(usage := u), remaining), start, revision, b, maxContextTokens) && |s.sentAt| == |s.sent|
  {
    var s' := Sent(s.(usage := u), remaining);
    SentNext(env, s, start, b, maxContextTokens, u, remaining);
    SameAnswers(env, s, s', start, revision, b);
    SentGrows(env, s, s', start, b, maxContextTokens);
    hide SentRight, AnsweredRight;
  }

  lemma SentGrows(
    env: Environment, s: Turn, longer: Turn, start: CompletionRequest, b: ResourceBudget, maxContextTokens: u64)
    requires SentRight(env, s, start, b, maxContextTokens) && |s.replies| == |s.sent|
    requires |longer.sent| == |longer.sentAt| == |longer.spent| == |s.sent| + 1 && longer.replies == s.replies
    requires longer.sent[..|s.sent|] == s.sent && longer.sentAt[..|s.sent|] == s.sentAt
      && longer.spent[..|s.sent|] == s.spent
    requires SentAs(env, longer, start, b, maxContextTokens, |s.sent|)
    ensures SentRight(env, longer, start, b, maxContextTokens)
  {
    hide SentAs, Accepted;
    forall k | 0 <= k < |s.sent|
      ensures SentAs(env, longer, start, b, maxContextTokens, k)
      ensures Accepted(env, longer.sent[k], longer.sentAt[k], longer.replies[..k], longer.replies[k], b)
    {
      SentBefore(env, s, longer, start, b, maxContextTokens, k);
      assert longer.sent[k] == s.sent[k] && longer.sentAt[k] == s.sentAt[k];
    }
  }

  lemma SentNext(
    env: Environment, s: Turn, start: CompletionRequest, b: ResourceBudget, maxContextTokens: u64, u: Usage,
    remaining: u64)
    requires |s.sent| == |s.sentAt| == |s.spent| == |s.replies|
    requires s.request.maxOutputTokens == CapBefore(start, s.sent, |s.sent|)
    requires u.outputTokens == UsageOf(s.replies).outputTokens && remaining == b.maxOutputTokens - u.outputTokens > 0
    requires !env.cancelled(s.tick) && env.projects(s.tick, CapFor(s.request, remaining))
      && env.elapsedMs(s.tick) <= b.maxElapsedMs
    requires env.tokens(s.request).Some? && env.tokens(s.request).value <= maxContextTokens
    ensures SentAs(env, Sent(s.(usage := u), remaining), start, b, maxContextTokens, |s.sent|)
  {
    var s', n := Sent(s.(usage := u), remaining), |s.sent|;
    assert s.replies[..n] == s.replies;
    hide UsageOf;
    assert s'.sent[n].(maxOutputTokens := s.request.maxOutputTokens) == s.request;
  }

  /** A sending is judged by what came before it alone. */
  lemma SentBefore(
    env: Environment, s: Turn, longer: Turn, start: CompletionRequest, b: ResourceBudget, maxContextTokens: u64, k: nat)
    requires |s.sent| == |s.sentAt| == |s.spent| && |longer.sent| == |longer.sentAt| == |longer.spent|
    requires k < |s.sent| <= |longer.sent| && k <= |s.replies| <= |longer.replies|
    requires longer.sent[..|s.sent|] == s.sent && longer.sentAt[..|s.sent|] == s.sentAt
      && longer.spent[..|s.sent|] == s.spent
    requires longer.replies[..|s.replies|] == s.replies
    ensures SentAs(env, longer, start, b, maxContextTokens, k) == SentAs(env, s, start, b, maxContextTokens, k)
  {
    hide UsageOf, Cleared;
    assert longer.sent[k] == s.sent[k] && longer.sentAt[k] == s.sentAt[k] && longer.spent[k] == s.spent[k];
    assert k > 0 ==> longer.sent[k - 1] == s.sent[k - 1];
    assert longer.replies[..k] == s.replies[..k];
  }

  lemma SendingConverses(env: Environment, s: Turn, start: CompletionRequest, remaining: u64)
    requires Conversing(env, s, start) && Settled(s)
    ensures Conversing(env, Sent(s, remaining), start)
  {
    var s' := Sent(s, remaining);
    assert s.rounds[..|s.rounds|] == s.rounds;
    assert SentAfter(s'.sent[|s.sent|], start, s.rounds, |s.sent|);
    hide SentAfter, Answers, Complete, Talk, AllResults, CapFor, FromModel;
    forall k | 0 <= k < |s'.sent|
      ensures SentAfter(s'.sent[k], start, s'.rounds, k)
    {
      assert k < |s.sent| ==> s'.sent[k] == s.sent[k];
    }
    assert s'.request.messages == s.request.messages && s'.request.tools == s.request.tools by {
      SameTalk(s.request, remaining);
    }
  }

  lemma SameTalk(request: CompletionRequest, remaining: u64)
    ensures CapFor(request, remaining).messages == request.messages && CapFor(request, remaining).tools == request.tools
  {}

  /** Charging the call and sending the capped request. */
  lemma SendingKeeps(env: Environment, s: Turn, start: CompletionRequest, revision: nat, b: ResourceBudget, u: Usage)
    requires Running(env, s, start, revision, b) && Settled(s) && s.usage.modelCalls == |s.sent|
    requires u == s.usage.(modelCalls := u.modelCalls) && u.modelCalls == s.usage.modelCalls + 1 <= b.maxModelCalls
    requires s.usage.outputTokens <= b.maxOutputTokens
    ensures Running(env, s.(usage := u), start, revision, b)
    ensures Running(env, Sent(s.(usage := u), b.maxOutputTokens - u.outputTokens), start, revision, b)
  {
    hide Settled, Conversing, Capped, AllCollected, AllAdvanced, CapFor, FromModel;
    var charged := s.(usage := u);
    SameConversation(env, s, charged, start);
    SameCaps(s, charged, start, b);
    SettledAgrees(s, charged);
    SendingCaps(charged, start, b, b.maxOutputTokens - u.outputTokens);
    SendingConverses(env, charged, start, b.maxOutputTokens - u.outputTokens);
    SameEffects(s, Sent(charged, b.maxOutputTokens - u.outputTokens), start, revision);
    SendingSources(env, charged, b.maxOutputTokens - u.outputTokens);
    hide Effects, Sourced;
  }

  lemma SendingSources(env: Environment, s: Turn, remaining: u64)
    requires Sourced(env, s)
    ensures Sourced(env, Sent(s, remaining))
  {
    hide FromModel, CapFor;
    assert forall k :: 0 <= k < |s.sent| ==> Sent(s, remaining).sent[k] == s.sent[k];
  }

  lemma SettledAgrees(s: Turn, other: Turn)
    requires Settled(s) && other.sent == s.sent && other.rounds == s.rounds
    ensures Settled(other)
  {}

  lemma RespondingConverses(env: Environment, s: Turn, start: CompletionRequest, reply: Reply)
    requires Conversing(env, s, start) && |s.sent| == |s.rounds| + 1 && reply.Response?
    ensures var s' := Responded(s, s.usage, reply);
      && Conversing(env, s', start) && |s'.sent| == |s'.rounds|
      && (forall k :: 0 <= k < |s.rounds| ==> Complete(s'.rounds[k]))
  {
    var s' := Responded(s, s.usage, reply);
    FreshRound(env, s.rounds, Round(reply.calls, []), start.tools, reply);
    assert SentAfter(s.sent[|s.rounds|], start, s.rounds, |s.rounds|);
    assert forall k :: 0 <= k < |s.rounds| ==> s'.rounds[k] == s.rounds[k];
    hide Answers, Talk, AllResults;
    forall k | 0 <= k < |s'.sent|
      ensures SentAfter(s'.sent[k], start, s'.rounds, k)
    {
      assert SentAfter(s.sent[k], start, s.rounds, k);
      assert s'.rounds[..k] == s.rounds[..k];
    }
  }

  lemma RespondingSources(env: Environment, s: Turn, tick: nat, reply: Reply)
    requires Sourced(env, s) && |s.sent| == |s.rounds| + 1
    requires reply == env.reply(tick, s.sent[|s.sent| - 1]) && reply.Response?
    ensures Sourced(env, Responded(s, s.usage, reply))
  {
    assert FromModel(env, s.sent[|s.rounds|], reply, Round(reply.calls, []));
    hide FromModel;
  }

  /** A response within every limit extends the trace. */
  lemma RespondingTraces(
    env: Environment, s: Turn, start: CompletionRequest, revision: nat, b: ResourceBudget, maxContextTokens: u64,
    u: Usage, reply: Reply)
    requires Traced(env, s, start, revision, b, maxContextTokens) && |s.sent| == |s.replies| + 1
    requires Accepted(env, s.sent[|s.replies|], s.sentAt[|s.replies|], s.replies, reply, b)
    ensures Traced(env, Responded(s, u, reply), start, revision, b, maxContextTokens)
  {
    var s' := Responded(s, u, reply);
    var n := |s.replies|;
    assert s'.rounds[..|s.rounds|] == s.rounds;
    assert AllCalls(s'.rounds) == AllCalls(s.rounds) + reply.calls;
    SameAnswers(env, s, s', start, revision, b);
    hide Accepted, AnsweredRight, SentAs, AllCalls, UsageOf;
    assert s'.replies[..n] == s.replies;
    assert forall k :: 0 <= k <= n ==> s'.replies[..k] == s.replies[..k];
    forall k | 0 <= k <= n
      ensures SentAs(env, s', start, b, maxContextTokens, k)
    {
      SentBefore(env, s, s', start, b, maxContextTokens, k);
    }
    assert forall k :: 0 <= k < n ==> s'.replies[k] == s.replies[k];
  }

  /** A response opens a round of its calls, without results yet. */
  lemma FreshRound(env: Environment, rounds: seq<Round>, round: Round, tools: set<Name>, reply: Reply)
    requires reply.Response? && round == Round(reply.calls, [])
    ensures Answers(env, tools, round)
    ensures Talk(rounds + [round]) == Talk(rounds) + [Assistant(reply.calls)]
    ensures AllResults(rounds + [round]) == AllResults(rounds)
  {
    assert (rounds + [round])[..|rounds|] == rounds;
  }

  /** The turn once the model has answered with some calls. */
  function Responded(s: Turn, u: Usage, reply: Reply): Turn
    requires reply.Response?
  {
    s.(usage := u, replies := s.replies + [reply], rounds := s.rounds + [Round(reply.calls, [])],
       request := s.request.(messages := s.request.messages + [Assistant(reply.calls)]))
  }

  lemma RespondingKeeps(
    env: Environment, s: Turn, start: CompletionRequest, revision: nat, b: ResourceBudget, u: Usage, tick: nat,
    reply: Reply)
    requires Running(env, s, start, revision, b) && |s.sent| == |s.rounds| + 1
    requires reply == env.reply(tick, s.sent[|s.sent| - 1]) && reply.Response?
    requires u.modelCalls == s.usage.modelCalls && u.toolCalls == s.usage.toolCalls
      && s.usage.outputTokens <= u.outputTokens
    ensures Running(env, s.(usage := u), start, revision, b)
    ensures var s' := Responded(s, u, reply);
      && Running(env, s', start, revision, b) && |s'.sent| == |s'.rounds|
      && (forall k :: 0 <= k < |s.rounds| ==> Complete(s'.rounds[k]))
  {
    hide Answers, Complete, AllCollected, AllAdvanced, Talk, AllResults, SentAfter, FromModel;
    var used := s.(usage := u);
    assert Capped(used, start, b) && Conversing(env, used, start) && Sourced(env, used);
    RespondingConverses(env, used, start, reply);
    RespondingSources(env, used, tick, reply);
    hide Conversing, Sourced;
    assert Capped(Responded(s, u, reply), start, b);
  }

  /** From the top of the loop to the model call: every check, then the cap. */
  method SendRequest(
    env: Environment, s0: Turn, usage: ResourceUsage, ghost start: CompletionRequest, ghost revision: nat,
    b: ResourceBudget, maxContextTokens: u64)
    returns (s: Turn, ended: Option<TurnStatus>)
    requires usage.Value() == s0.usage && AtRest(s0)
    requires Running(env, s0, start, revision, b) && Settled(s0) && s0.usage.outputTokens <= b.maxOutputTokens
    requires s0.usage == Reckoned(s0) && s0.usage.modelCalls == |s0.sent|
    requires Traced(env, s0, start, revision, b, maxContextTokens)
    modifies usage
    ensures usage.Value() == s.usage && OnTime(s) && s.tick == Elapsed(s.rounds) + 1
    ensures ended.Some? && env.cancelled(s.tick) ==> ended.value.Cancelled?
    ensures Running(env, s, start, revision, b) && Traced(env, s, start, revision, b, maxContextTokens)
    ensures s.usage == Reckoned(s) && s.replies == s0.replies && s.rounds == s0.rounds && s.results == s0.results
    ensures ended.Some? ==>
      s.sent == s0.sent && !ended.value.Completed? && Justified(env, s, b, maxContextTokens, ended.value, None)
    ensures ended.None? ==>
      && s.usage.modelCalls == s0.usage.modelCalls + 1 && s.usage.outputTokens <= b.maxOutputTokens
      && s.sent == s0.sent + [s.request] && s.sentAt == s0.sentAt + [s.tick]
      && |s.sentAt| == |s.sent| == s.usage.modelCalls
    // The first check that fails decides.
    ensures var at, tokens := s0.tick + 1, env.tokens(s0.request);
      var late, spent := env.elapsedMs(at) > b.maxElapsedMs, s0.usage.modelCalls >= b.maxModelCalls;
      && (env.cancelled(at) ==> ended == Some(Cancelled))
      && (!env.cancelled(at) && tokens.None? ==> ended == Some(Failed(Projection)))
      && (!env.cancelled(at) && tokens.Some? && tokens.value > maxContextTokens ==>
            ended == Some(BudgetExhausted(InputTokens)))
      && (!env.cancelled(at) && tokens.Some? && tokens.value <= maxContextTokens ==>
            && (late ==> ended == Some(BudgetExhausted(Deadline)))
            && (!late && spent ==> ended == Some(BudgetExhausted(ModelCalls)))
            && (!late && !spent && s0.usage.outputTokens == b.maxOutputTokens ==>
                  ended == Some(BudgetExhausted(OutputTokens)))
            && (!late && !spent && s0.usage.outputTokens < b.maxOutputTokens ==>
                  ended.None? || ended == Some(Failed(Projection))))
    // The request is the one held, capped at the smaller of its cap and what remains of the budget.
    ensures ended.None? ==>
      && s.request.tools == s0.request.tools && s.request.messages == s0.request.messages
      && s.request.maxOutputTokens.Some? && s0.usage.outputTokens < b.maxOutputTokens
      && var cap, remaining := s.request.maxOutputTokens.value, b.maxOutputTokens - s0.usage.outputTokens;
         match s0.request.maxOutputTokens
         case None => cap == remaining
         case Some(held) => cap <= held && cap <= remaining && (cap == held || cap == remaining)
  {
    hide Running, Counted, Capped, Conversing, Effects, Traced, Clocked;
    s := s0.(tick := s0.tick + 1);
    TickKeeps(env, s0, start, revision, b, s.tick);
    SameTrace(env, s0, s, start, revision, b, maxContextTokens);
    if env.cancelled(s.tick) {
      return s, Some(Cancelled);
    }
    var requestTokens := env.tokens(s.request);
    if requestTokens.None? {
      return s, Some(Failed(Projection));
    }
    if requestTokens.value > maxContextTokens {
      return s, Some(BudgetExhausted(InputTokens));
    }
    var stop := usage.ChargeModel(b, env.elapsedMs(s.tick));
    if stop.Some? {
      return s, Some(BudgetExhausted(stop.value));
    }
    SendingKeeps(env, s, start, revision, b, usage.Value());
    RunningTells(env, s, start, revision, b);
    ghost var checked := s;
    s := s.(usage := usage.Value());
    SameTrace(env, checked, s, start, revision, b, maxContextTokens);
    var remaining := b.maxOutputTokens - s.usage.outputTokens;
    if remaining == 0 {
      return s, Some(BudgetExhausted(OutputTokens));
    }
    if !env.projects(s.tick, CapFor(s.request, remaining)) {
      return s, Some(Failed(Projection));
    }
    SendingTraces(env, checked, start, revision, b, maxContextTokens, s.usage, remaining);
    s := Sent(s, remaining);
    ClockSends(s0.rounds, s0.sentAt, s0.answeredAt);
    return s, None;
  }

  datatype Asked = Ended(status: TurnStatus, text: Option<nat>) | Calls(calls: seq<Call>)

  /** A response: charged, and either the end of the turn or calls to run. */
  method TakeResponse(
    env: Environment, s0: Turn, usage: ResourceUsage, ghost start: CompletionRequest, ghost revision: nat,
    b: ResourceBudget, ghost maxContextTokens: u64, reply: Reply)
    returns (s: Turn, asked: Asked)
    requires usage.Value() == s0.usage == Reckoned(s0) && s0.usage.outputTokens <= b.maxOutputTokens
    requires Running(env, s0, start, revision, b) && Traced(env, s0, start, revision, b, maxContextTokens) && Going(s0)
    requires |s0.sent| == |s0.sentAt| == |s0.rounds| + 1 && s0.sent[|s0.rounds|] == s0.request
      && s0.sentAt[|s0.rounds|] == s0.tick
    requires reply == env.reply(s0.tick, s0.request) && reply.Response?
    requires Waiting(s0)
    modifies usage
    ensures usage.Value() == s.usage && s.usage.modelCalls == s0.usage.modelCalls && s.sent == s0.sent
    ensures Running(env, s, start, revision, b) && Traced(env, s, start, revision, b, maxContextTokens)
    ensures asked.Ended? ==>
      Justified(env, s, b, maxContextTokens, asked.status, asked.text) && StopsAtOnce(s, asked.status, asked.text)
    ensures s.usage == Reckoned(s)
      || (asked.Ended? && asked.status.BudgetExhausted? && Overran(env, s, b, asked.status.reason))
    ensures if asked.Calls? then AtRest(s) else EndsOnTime(env, s, asked.status)
    ensures asked.Calls? ==>
      && Going(s) && s.usage == Reckoned(s) && s.usage.outputTokens <= b.maxOutputTokens
      && |s.sent| == |s.rounds| && s.rounds[|s.rounds| - 1] == Round(asked.calls, [])
      && (forall k :: 0 <= k < |s.rounds| - 1 ==> Complete(s.rounds[k]))
    ensures asked.Ended? ==> (asked.text.Some? <==> asked.status.Completed?)
  {
    hide Running, Counted, Capped, Conversing, Effects, Traced, EndsTurn, Accepted, Reckoned, Waiting, AtRest,
      EndsOnTime;
    var stop := usage.ChargeResponse(b, reply.report, reply.textBytes, env.elapsedMs(s0.tick + 1));
    RespondingKeeps(env, s0, start, revision, b, usage.Value(), s0.tick, reply);
    RunningTells(env, s0, start, revision, b);
    if stop.Some? {
      s := s0.(usage := usage.Value());
      SameTrace(env, s0, s, start, revision, b, maxContextTokens);
      SameReckoning(s0, s);
      ClockStops(env, s0, s, BudgetExhausted(stop.value));
      return s, Ended(BudgetExhausted(stop.value), None);
    }
    ReplyReckoned(env, s0, b, reply);
    RespondingTraces(env, s0, start, revision, b, maxContextTokens, usage.Value(), reply);
    var responded := Responded(s0, usage.Value(), reply);
    s := responded.(tick := s0.tick + 1);
    TickKeeps(env, responded, start, revision, b, s.tick);
    SameTrace(env, responded, s, start, revision, b, maxContextTokens);
    SameReckoning(responded, s);
    ClockResponds(env, s0, s, reply.calls);
    if reply.calls == [] {
      return s, Ended(Completed, Some(reply.text));
    }
    return s, Calls(reply.calls);
  }

  /** From the top of the loop to the model's calls. */
  method Ask(
    env: Environment, s0: Turn, usage: ResourceUsage, ghost start: CompletionRequest, ghost revision: nat,
    b: ResourceBudget, maxContextTokens: u64)
    returns (s: Turn, asked: Asked)
    requires usage.Value() == s0.usage && AtRest(s0)
    requires Running(env, s0, start, revision, b) && Settled(s0) && s0.usage.outputTokens <= b.maxOutputTokens
    requires s0.usage == Reckoned(s0) && s0.usage.modelCalls == |s0.sent|
    requires Traced(env, s0, start, revision, b, maxContextTokens) && Going(s0)
    modifies usage
    ensures usage.Value() == s.usage
    ensures Running(env, s, start, revision, b) && Traced(env, s, start, revision, b, maxContextTokens)
    ensures asked.Ended? ==>
      Justified(env, s, b, maxContextTokens, asked.status, asked.text) && StopsAtOnce(s, asked.status, asked.text)
    ensures asked.Calls? ==> Going(s)
    ensures if asked.Calls? then AtRest(s) else EndsOnTime(env, s, asked.status)
    ensures s.usage == Reckoned(s)
      || (asked.Ended? && asked.status.BudgetExhausted? && Overran(env, s, b, asked.status.reason))
    ensures asked.Calls? ==> s.usage == Reckoned(s) && s.usage.modelCalls == |s.sent|
    ensures asked.Calls? ==>
      && s0.usage.modelCalls < s.usage.modelCalls && s.usage.outputTokens <= b.maxOutputTokens
      && |s.sent| == |s.rounds| > 0 && s.rounds[|s.rounds| - 1] == Round(asked.calls, [])
      && (forall k :: 0 <= k < |s.rounds| - 1 ==> Complete(s.rounds[k]))
    ensures asked.Ended? ==> (asked.text.Some? <==> asked.status.Completed?)
  {
    hide Running, Traced, EndsTurn, Reckoned, Clocked;
    var ended;
    s, ended := SendRequest(env, s0, usage, start, revision, b, maxContextTokens);
    if ended.Some? {
      return s, Ended(ended.value, None);
    }
    var reply := env.reply(s.tick, s.request);
    if reply.ProviderError? {
      return s, Ended(Failed(Provider), None);
    }
    if reply.Interrupted? {
      return s, Ended(Cancelled, None);
    }
    s, asked := TakeResponse(env, s, usage, start, revision, b, maxContextTokens, reply);
  }

  lemma SameReckoning(a: Turn, c: Turn)
    requires c.replies == a.replies && c.usage.modelCalls == a.usage.modelCalls
      && c.usage.toolCalls == a.usage.toolCalls
    ensures Reckoned(c) == Reckoned(a)
  {}

  /** A response that goes through is accounted for. */
  lemma ReplyReckoned(env: Environment, s: Turn, b: ResourceBudget, reply: Reply)
    requires reply.Response? && s.usage == Reckoned(s) && |s.sent| == |s.sentAt| == |s.replies| + 1
    requires reply == env.reply(s.tick, s.request) && s.sent[|s.replies|] == s.request
      && s.sentAt[|s.replies|] == s.tick
    ensures var charge := AfterResponse(s.usage, b, reply.report, reply.textBytes, env.elapsedMs(s.tick + 1));
      charge.stop.None? ==>
        && charge.usage == Reckoned(Responded(s, charge.usage, reply))
        && Accepted(env, s.sent[|s.replies|], s.sentAt[|s.replies|], s.replies, reply, b)
  {
    assert (s.replies + [reply])[..|s.replies|] == s.replies;
  }

  lemma TickKeeps(env: Environment, s: Turn, start: CompletionRequest, revision: nat, b: ResourceBudget, tick: nat)
    requires Running(env, s, start, revision, b)
    ensures Running(env, s.(tick := tick), start, revision, b)
  {
    hide AllCollected, AllAdvanced, AllResults, Talk, SentAfter, Answers;
  }

  // ---------------------------------------------------------------- tools

  /** The last round with one more result. */
  function Grown(rounds: seq<Round>, result: ToolResult): seq<Round>
    requires rounds != []
  {
    var last := rounds[|rounds| - 1];
    rounds[..|rounds| - 1] + [Round(last.calls, last.results + [result])]
  }

  /** The turn once a call has its result. */
  function Answered(s: Turn, call: Call, result: ToolResult): Turn
    requires s.rounds != []
  {
    s.(results := s.results + [result], answeredAt := s.answeredAt + [s.tick],
       outcomes := s.outcomes + [CallOutcome(call.id, call.name, result.isError)],
       events := if result.isError then s.events else Collected(s.events, result.content),
       revision := if result.isError then s.revision else Advanced(s.revision, result.content),
       rounds := Grown(s.rounds, result),
       request := s.request.(messages := s.request.messages + [ToolMessage(result)]))
  }

  lemma GrownTalk(rounds: seq<Round>, result: ToolResult)
    requires rounds != []
    ensures Talk(Grown(rounds, result)) == Talk(rounds) + [ToolMessage(result)]
    ensures AllResults(Grown(rounds, result)) == AllResults(rounds) + [result]
  {
    var last := rounds[|rounds| - 1];
    var grown := Grown(rounds, result);
    assert grown[..|grown| - 1] == rounds[..|rounds| - 1];
    assert ToolMessages(last.results + [result]) == ToolMessages(last.results) + [ToolMessage(result)];
  }

  /** The call at hand is the next one of the last round. */
  ghost predicate Awaiting(s: Turn, call: Call) {
    && |s.sent| == |s.rounds| > 0
    && (forall k :: 0 <= k < |s.rounds| - 1 ==> Complete(s.rounds[k]))
    && var last := s.rounds[|s.rounds| - 1];
       |last.results| < |last.calls| && last.calls[|last.results|] == call
  }

  lemma {:induction false} CompleteRounds(rounds: seq<Round>)
    requires forall k :: 0 <= k < |rounds| ==> Complete(rounds[k])
    ensures |AllCalls(rounds)| == |AllResults(rounds)|
    decreases |rounds|
  {
    if rounds != [] {
      CompleteRounds(rounds[..|rounds| - 1]);
    }
  }

  /** The awaited call is the first of all calls without a result. */
  lemma AwaitedCall(s: Turn, call: Call)
    requires Awaiting(s, call) && s.results == AllResults(s.rounds)
    ensures |s.results| < |AllCalls(s.rounds)| && AllCalls(s.rounds)[|s.results|] == call
  {
    CompleteRounds(s.rounds[..|s.rounds| - 1]);
  }

  lemma GrownCalls(rounds: seq<Round>, result: ToolResult)
    requires rounds != []
    ensures AllCalls(Grown(rounds, result)) == AllCalls(rounds)
  {
    assert Grown(rounds, result)[..|rounds| - 1] == rounds[..|rounds| - 1];
  }

  /** An answer to the awaited call extends the trace. */
  lemma AnsweringTraces(
    env: Environment, s: Turn, start: CompletionRequest, revision: nat, b: ResourceBudget, maxContextTokens: u64,
    call: Call, result: ToolResult, u: Usage)
    requires Traced(env, s, start, revision, b, maxContextTokens) && Awaiting(s, call)
    requires s.results == AllResults(s.rounds) && s.revision == AllAdvanced(revision, s.results)
    requires AnsweredAs(env, start.tools, call, s.revision, s.tick, b, result,
      CallOutcome(call.id, call.name, result.isError))
    ensures Traced(env, Logged(Answered(s.(usage := u), call, result), s, call, call.name in start.tools), start,
      revision, b, maxContextTokens)
  {
    var s' := Logged(Answered(s.(usage := u), call, result), s, call, call.name in start.tools);
    AnsweringFits(env, s, s', start, revision, b, call, result);
    SameSending(env, s, s', start, b, maxContextTokens);
    hide SentRight, AnsweredRight;
  }

  /** The answers so far and the one to the awaited call are right together. */
  lemma AnsweringFits(
    env: Environment, s: Turn, longer: Turn, start: CompletionRequest, revision: nat, b: ResourceBudget, call: Call,
    result: ToolResult)
    requires AnsweredRight(env, s, start, revision, b) && Awaiting(s, call)
    requires s.results == AllResults(s.rounds) && s.revision == AllAdvanced(revision, s.results)
    requires AnsweredAs(env, start.tools, call, s.revision, s.tick, b, result,
      CallOutcome(call.id, call.name, result.isError))
    requires longer.results == s.results + [result] && longer.answeredAt == s.answeredAt + [s.tick]
    requires longer.outcomes == s.outcomes + [CallOutcome(call.id, call.name, result.isError)]
    requires longer.rounds == Grown(s.rounds, result)
    requires longer.executed == s.executed + if call.name in start.tools then [Execution(call, s.revision)] else []
    ensures AnsweredRight(env, longer, start, revision, b)
  {
    var calls, n := AllCalls(s.rounds), |s.results|;
    AwaitedCall(s, call);
    GrownCalls(s.rounds, result);
    hide AllCalls, AllResults, AllAdvanced, AnsweredAs, Awaiting, Grown;
    AnsweringExecutes(start.tools, revision, calls, s.results, result);
    AnswerNext(env, s, longer, start.tools, calls, revision, b, call);
    hide AnswerAt, ExecutedBy;
    forall k | 0 <= k < n
      ensures AnswerAt(env, longer, start.tools, calls, revision, b, k)
    {
      assert AnswerAt(env, s, start.tools, calls, revision, b, k);
      AnswerBefore(env, s, longer, start.tools, calls, revision, b, k);
    }
  }

  lemma AnswerNext(
    env: Environment, s: Turn, longer: Turn, tools: set<Name>, calls: seq<Call>, revision: nat, b: ResourceBudget,
    call: Call)
    requires |s.results| == |s.outcomes| == |s.answeredAt| < |calls| && call == calls[|s.results|]
    requires |longer.results| == |longer.outcomes| == |longer.answeredAt| == |s.results| + 1
    requires longer.results[..|s.results|] == s.results
    requires AnsweredAs(env, tools, call, AllAdvanced(revision, s.results), longer.answeredAt[|s.results|], b,
      longer.results[|s.results|], longer.outcomes[|s.results|])
    ensures AnswerAt(env, longer, tools, calls, revision, b, |s.results|)
  {
    hide AllAdvanced, AnsweredAs;
  }

  /** An answer is judged by what came before it alone. */
  lemma AnswerBefore(
    env: Environment, s: Turn, longer: Turn, tools: set<Name>, calls: seq<Call>, revision: nat, b: ResourceBudget,
    k: nat)
    requires k < |s.results| == |s.outcomes| == |s.answeredAt| <= |longer.results|
    requires |longer.results| == |longer.outcomes| == |longer.answeredAt| <= |calls|
    requires longer.results[..|s.results|] == s.results && longer.outcomes[..|s.results|] == s.outcomes
    requires longer.answeredAt[..|s.results|] == s.answeredAt
    ensures AnswerAt(env, longer, tools, calls, revision, b, k) == AnswerAt(env, s, tools, calls, revision, b, k)
  {
    hide AllAdvanced, AnsweredAs;
    assert longer.results[..k] == s.results[..k];
    assert longer.results[k] == s.results[k] && longer.outcomes[k] == s.outcomes[k]
      && longer.answeredAt[k] == s.answeredAt[k];
  }

  lemma AnsweringExecutes(
    tools: set<Name>, revision: nat, calls: seq<Call>, results: seq<ToolResult>, result: ToolResult)
    requires |results| < |calls|
    ensures var n := |results|;
      ExecutedBy(tools, revision, calls[..n + 1], results + [result])
      == ExecutedBy(tools, revision, calls[..n], results)
      + if calls[n].name in tools then [Execution(calls[n], AllAdvanced(revision, results))] else []
  {
    var n := |results|;
    assert calls[..n + 1][..n] == calls[..n] && (results + [result])[..n] == results;
  }

  lemma AnsweringConverses(env: Environment, s: Turn, start: CompletionRequest, call: Call, result: ToolResult)
    requires Conversing(env, s, start) && Awaiting(s, call)
    requires if call.name in start.tools then Produced(env, call, result) else result == ErrorResult(call)
    requires Faithful(env) ==> result.callId == call.id
    ensures Conversing(env, Answered(s, call, result), start)
  {
    var s' := Answered(s, call, result);
    var n := |s.rounds| - 1;
    GrownTalk(s.rounds, result);
    assert Answers(env, start.tools, s.rounds[n]);
    assert Answers(env, start.tools, s'.rounds[n]);
    hide Answers, Talk, AllResults, Faithful, Produced;
    forall k | 0 <= k < |s'.sent|
      ensures SentAfter(s'.sent[k], start, s'.rounds, k)
    {
      assert SentAfter(s.sent[k], start, s.rounds, k);
      assert s'.rounds[..k] == s.rounds[..k];
    }
  }

  lemma AnsweringSources(env: Environment, s: Turn, call: Call, result: ToolResult)
    requires Sourced(env, s) && s.rounds != []
    ensures Sourced(env, Answered(s, call, result))
  {
    var n := |s.rounds| - 1;
    var s' := Answered(s, call, result);
    assert FromModel(env, s.sent[n], s.replies[n], s.rounds[n]);
    assert FromModel(env, s.sent[n], s.replies[n], s'.rounds[n]);
    hide FromModel;
  }

  lemma AnsweringEffects(s: Turn, start: CompletionRequest, revision: nat, call: Call, result: ToolResult)
    requires Effects(s, start, revision) && s.rounds != []
    ensures Effects(Answered(s, call, result), start, revision)
  {
    assert (s.results + [result])[..|s.results|] == s.results;
    hide Collected, Advanced;
  }

  lemma AnsweringKeeps(
    env: Environment, s: Turn, start: CompletionRequest, revision: nat, b: ResourceBudget, u: Usage, call: Call,
    result: ToolResult, ran: bool)
    requires Running(env, s, start, revision, b) && Awaiting(s, call)
    requires u == s.usage.(toolCalls := u.toolCalls) && u.toolCalls == s.usage.toolCalls + 1 <= b.maxToolCalls
    requires ran ==> call.name in start.tools
    requires if call.name in start.tools then Produced(env, call, result) else result == ErrorResult(call)
    requires Faithful(env) ==> result.callId == call.id
    ensures Running(env, Logged(Answered(s.(usage := u), call, result), s, call, ran), start, revision, b)
  {
    hide Faithful, AllCollected, AllAdvanced, Talk, AllResults, SentAfter, Answers, Grown, Collected, Produced,
      FromModel;
    AnsweringConverses(env, s, start, call, result);
    AnsweringSources(env, s, call, result);
    var logged := Logged(s, s, call, ran);
    assert Effects(logged, start, revision);
    AnsweringEffects(logged, start, revision, call, result);
    SameConversation(env, Answered(s, call, result), Logged(Answered(s.(usage := u), call, result), s, call, ran),
      start);
    SameCaps(s, Logged(Answered(s.(usage := u), call, result), s, call, ran), start, b);
    SameEffects(Answered(logged, call, result), Logged(Answered(s.(usage := u), call, result), s, call, ran), start,
      revision);
    hide Conversing, Capped, Effects, FromModel;
  }

  /** Record the execution, with the revision its context carried. */
  function Logged(s: Turn, before: Turn, call: Call, ran: bool): Turn {
    if ran then s.(executed := s.executed + [Execution(call, before.revision)]) else s
  }

  lemma SameConversation(env: Environment, a: Turn, b: Turn, start: CompletionRequest)
    requires Conversing(env, a, start)
    requires b.request == a.request && b.rounds == a.rounds && b.results == a.results && b.sent == a.sent
      && b.replies == a.replies
    ensures Conversing(env, b, start)
  {}

  lemma SameCaps(a: Turn, b: Turn, start: CompletionRequest, budget: ResourceBudget)
    requires Capped(a, start, budget)
    requires b.sent == a.sent && b.spent == a.spent && b.usage.outputTokens == a.usage.outputTokens
    requires b.request.maxOutputTokens == a.request.maxOutputTokens
    ensures Capped(b, start, budget)
  {}

  lemma SameEffects(a: Turn, b: Turn, start: CompletionRequest, revision: nat)
    requires Effects(a, start, revision)
    requires b.executed == a.executed && b.events == a.events && b.revision == a.revision
    requires b.results == a.results && b.outcomes == a.outcomes
    ensures Effects(b, start, revision)
  {}

  /** One tool call: limits, then the tool if it was offered, then its effects. */
  method RunCall(
    env: Environment, s0: Turn, usage: ResourceUsage, ghost start: CompletionRequest, ghost revision: nat,
    b: ResourceBudget, ghost maxContextTokens: u64, call: Call)
    returns (s: Turn, ended: Option<TurnStatus>)
    requires usage.Value() == s0.usage && AtRest(s0)
    requires Running(env, s0, start, revision, b) && Awaiting(s0, call) && s0.request.tools == start.tools
    requires Traced(env, s0, start, revision, b, maxContextTokens) && Going(s0)
    modifies usage
    ensures usage.Value() == s.usage && if ended.Some? then EndsOnTime(env, s, ended.value) else AtRest(s)
    ensures Running(env, s, start, revision, b) && Traced(env, s, start, revision, b, maxContextTokens)
    ensures if ended.Some? then StopsAtOnce(s, ended.value, None) else Going(s)
    ensures s.request.tools == s0.request.tools && s.sent == s0.sent && s.replies == s0.replies
    ensures s.usage == s0.usage.(toolCalls := s.usage.toolCalls)
    ensures ended.Some? ==> Justified(env, s, b, maxContextTokens, ended.value, None)
    ensures ended.None? ==> s.results != [] && s.rounds == Grown(s0.rounds, s.results[|s.results| - 1])
  {
    hide Running, Counted, Capped, Conversing, Effects, Answers, Faithful, Produced, ResultOf, Traced, TurnBarrier,
      AtRest, EndsOnTime;
    s := s0.(tick := s0.tick + 1);
    TickKeeps(env, s0, start, revision, b, s.tick);
    SameTrace(env, s0, s, start, revision, b, maxContextTokens);
    if env.cancelled(s.tick) {
      ClockFails(env, s0, s, Cancelled);
      return s, Some(Cancelled);
    }
    var stop := usage.ChargeTool(b, env.elapsedMs(s.tick));
    if stop.Some? {
      ClockFails(env, s0, s, BudgetExhausted(stop.value));
      return s, Some(BudgetExhausted(stop.value));
    }
    var offered := call.name in s.request.tools;
    var result := if offered then ResultOf(env, s.tick, call, s.revision) else ErrorResult(call);
    ProducedResult(env, s.tick, call, s.revision);
    AnsweringKeeps(env, s, start, revision, b, usage.Value(), call, result, offered);
    RunningTells(env, s, start, revision, b);
    AnsweringTraces(env, s, start, revision, b, maxContextTokens, call, result, usage.Value());
    var events, revision' := s.events, s.revision;
    if !result.isError {
      events := CollectEvents(result, events);
      revision' := AdvanceToolRevision(result, revision');
    }
    var outcome := CallOutcome(call.id, call.name, result.isError);
    var log := if offered then s.executed + [Execution(call, s.revision)] else s.executed;
    s := s.(usage := usage.Value(), events := events, revision := revision', executed := log,
      outcomes := s.outcomes + [outcome], results := s.results + [result], answeredAt := s.answeredAt + [s.tick],
      rounds := Grown(s.rounds, result),
      request := s.request.(messages := s.request.messages + [ToolMessage(result)]));
    ClockAnswers(env, s0, s, result);
    return s, if !result.isError && TurnBarrier(result) then Some(Completed) else None;
  }

  lemma ProducedResult(env: Environment, tick: nat, call: Call, revision: nat)
    ensures Faithful(env) ==> ResultOf(env, tick, call, revision).callId == call.id
    ensures Produced(env, call, ResultOf(env, tick, call, revision))
  {}

  /** The calls of one response in order, until one of them ends the turn. */
  method RunCalls(
    env: Environment, s0: Turn, usage: ResourceUsage, ghost start: CompletionRequest, ghost revision: nat,
    b: ResourceBudget, ghost maxContextTokens: u64, calls: seq<Call>)
    returns (s: Turn, ended: Option<TurnStatus>)
    requires usage.Value() == s0.usage && AtRest(s0)
    requires Running(env, s0, start, revision, b) && s0.request.tools == start.tools
    requires |s0.sent| == |s0.rounds| > 0 && s0.rounds[|s0.rounds| - 1] == Round(calls, [])
    requires forall k :: 0 <= k < |s0.rounds| - 1 ==> Complete(s0.rounds[k])
    requires s0.usage.modelCalls == |s0.sent|
    requires Traced(env, s0, start, revision, b, maxContextTokens) && Going(s0)
    modifies usage
    ensures usage.Value() == s.usage && if ended.Some? then EndsOnTime(env, s, ended.value) else AtRest(s)
    ensures Running(env, s, start, revision, b) && Traced(env, s, start, revision, b, maxContextTokens)
    ensures s.request.tools == start.tools && if ended.Some? then StopsAtOnce(s, ended.value, None) else Going(s)
    ensures s.usage == s0.usage.(toolCalls := s.usage.toolCalls) && s.replies == s0.replies
    ensures ended.None? ==> Settled(s) && s.sent == s0.sent
    ensures ended.Some? ==> Justified(env, s, b, maxContextTokens, ended.value, None)
  {
    hide Running, Traced, Going, StopsAtOnce, AtRest, EndsOnTime;
    s := s0;
    for i := 0 to |calls|
      invariant usage.Value() == s.usage && AtRest(s)
      invariant Running(env, s, start, revision, b) && s.request.tools == start.tools
      invariant Traced(env, s, start, revision, b, maxContextTokens) && Going(s)
      invariant s.usage == s0.usage.(toolCalls := s.usage.toolCalls) && s.replies == s0.replies && s.sent == s0.sent
      invariant |s.sent| == |s.rounds| == |s0.rounds|
      invariant s.rounds[|s.rounds| - 1].calls == calls && |s.rounds[|s.rounds| - 1].results| == i
      invariant forall k :: 0 <= k < |s.rounds| - 1 ==> Complete(s.rounds[k])
    {
      s, ended := RunCall(env, s, usage, start, revision, b, maxContextTokens, calls[i]);
      if ended.Some? {
        return;
      }
    }
    return s, None;
  }

  /** What every finished turn guarantees. */
  ghost predicate TurnContract(
    env: Environment, s: Turn, start: CompletionRequest, revision: nat, b: ResourceBudget, maxContextTokens: u64,
    outcome: TurnOutcome)
  {
    && Running(env, s, start, revision, b)
    && Justified(env, s, b, maxContextTokens, outcome.status, outcome.finalText)
    && (s.usage == Reckoned(s) || (outcome.status.BudgetExhausted? && Overran(env, s, b, outcome.status.reason)))
    && outcome == Outcome(s, outcome.status, outcome.finalText)
    && (outcome.finalText.Some? ==> outcome.status.Completed?)
    && Traced(env, s, start, revision, b, maxContextTokens) && StopsAtOnce(s, outcome.status, outcome.finalText)
    && EndsOnTime(env, s, outcome.status)
  }

  /**
   * `run_turn`. The returned turn records every request sent and every call
   * executed; `Running` says what holds of them and `Justified` why it ended.
   */
  method RunTurn(env: Environment, start: CompletionRequest, revision: nat, b: ResourceBudget, maxContextTokens: u64)
    returns (outcome: TurnOutcome, s: Turn)
    ensures TurnContract(env, s, start, revision, b, maxContextTokens, outcome)
  {
    hide Running, Settled, Justified, Overran, Traced, StopsAtOnce, Going, AtRest, EndsOnTime;
    s := StartTurn(start, revision);
    var usage := new ResourceUsage();
    StartIsRunning(env, start, revision, b, maxContextTokens);
    while true
      invariant usage.Value() == s.usage && AtRest(s)
      invariant Running(env, s, start, revision, b) && Settled(s)
      invariant Traced(env, s, start, revision, b, maxContextTokens) && Going(s)
      invariant s.usage == Reckoned(s) && s.usage.modelCalls == |s.sent|
      invariant s.usage.outputTokens <= b.maxOutputTokens && s.usage.modelCalls <= b.maxModelCalls
      decreases b.maxModelCalls - s.usage.modelCalls
    {
      ghost var before := s.usage.modelCalls;
      var asked;
      s, asked := Ask(env, s, usage, start, revision, b, maxContextTokens);
      if asked.Ended? {
        return Outcome(s, asked.status, asked.text), s;
      }
      RunningFacts(env, s, start, revision, b);
      var ended;
      s, ended := RunCalls(env, s, usage, start, revision, b, maxContextTokens, asked.calls);
      if ended.Some? {
        return Outcome(s, ended.value, None), s;
      }
    }
  }

  lemma RunningFacts(env: Environment, s: Turn, start: CompletionRequest, revision: nat, b: ResourceBudget)
    requires Running(env, s, start, revision, b)
    ensures s.request.tools == start.tools && s.usage.modelCalls <= b.maxModelCalls
  {}

  lemma StartIsRunning(
    env: Environment, start: CompletionRequest, revision: nat, b: ResourceBudget, maxContextTokens: u64)
    ensures Traced(env, StartTurn(start, revision), start, revision, b, maxContextTokens)
      && Going(StartTurn(start, revision)) && AtRest(StartTurn(start, revision))
    ensures Running(env, StartTurn(start, revision), start, revision, b) && Settled(StartTurn(start, revision))
  {
    assert start.messages + [] == start.messages;
  }

  // ------------------------------------------------- what the contract says

  /** A turn's own budget never stops it for the number of turns or rounds. */
  lemma TurnReasons(
    env: Environment, s: Turn, start: CompletionRequest, revision: nat, b: ResourceBudget, maxContextTokens: u64,
    outcome: TurnOutcome)
    requires TurnContract(env, s, start, revision, b, maxContextTokens, outcome)
    ensures outcome.status.BudgetExhausted? ==>
      outcome.status.reason != AgentTurns && outcome.status.reason != OrchestrationRounds
  {
    hide Running, Reckoned, Traced, StopsAtOnce;
  }

  /** Model calls, tool calls and events of a finished turn respect their bounds. */
  lemma TurnLimits(
    env: Environment, s: Turn, start: CompletionRequest, revision: nat, b: ResourceBudget, maxContextTokens: u64,
    outcome: TurnOutcome)
    requires TurnContract(env, s, start, revision, b, maxContextTokens, outcome)
    ensures |s.sent| <= outcome.usage.modelCalls <= b.maxModelCalls
    ensures |s.executed| <= |outcome.toolResults| == outcome.usage.toolCalls <= b.maxToolCalls
    ensures forall k :: 0 <= k < |s.executed| ==> s.executed[k].call.name in start.tools
    ensures forall j, k :: 0 <= j < k < |s.executed| ==> s.executed[j].revision <= s.executed[k].revision
    ensures Distinct(outcome.committedEvents)
    ensures forall e :: e in outcome.committedEvents <==> Reports(outcome.toolResults, e)
  {
    CommittedEventsExact(s.results);
  }

  /** The response at `from` is directly followed by one result per call, in call order. */
  ghost predicate AnsweredInOrder(messages: seq<Message>, round: Round, from: nat) {
    && Complete(round) && from + |round.calls| < |messages|
    && messages[from] == Assistant(round.calls)
    && messages[from + 1..from + 1 + |round.calls|] == ToolMessages(round.results)
  }

  /**
   * Every later request answers every earlier tool call exactly once, in
   * order, right after the response that made it; the answers are those of
   * the tool, or an error, and carry the call's identifier if executors do.
   */
  lemma EveryCallAnswered(
    env: Environment, s: Turn, start: CompletionRequest, revision: nat, b: ResourceBudget, maxContextTokens: u64,
    outcome: TurnOutcome, k: nat, j: nat)
    requires TurnContract(env, s, start, revision, b, maxContextTokens, outcome)
    requires j < k < |s.sent| && j < |s.rounds|
    ensures AnsweredInOrder(s.sent[k].messages, s.rounds[j], |start.messages| + |Talk(s.rounds[..j])|)
    ensures Answers(env, start.tools, s.rounds[j])
  {
    hide Running, Talk, Answers, AnsweredInOrder, Traced, StopsAtOnce, Justified;
    SentFacts(env, s, start, revision, b, k, j);
    TalkHolds(s.rounds[..k], j);
    assert s.rounds[..k][..j] == s.rounds[..j] && s.rounds[..k][j] == s.rounds[j];
    AnsweredWithin(start.messages, Talk(s.rounds[..k]), |Talk(s.rounds[..j])|, s.rounds[j]);
  }

  lemma SentFacts(env: Environment, s: Turn, start: CompletionRequest, revision: nat, b: ResourceBudget, k: nat, j: nat)
    requires Running(env, s, start, revision, b)
    requires j < k < |s.sent| && j < |s.rounds|
    ensures k <= |s.rounds| && s.sent[k].messages == start.messages + Talk(s.rounds[..k])
    ensures Complete(s.rounds[j]) && Answers(env, start.tools, s.rounds[j])
  {
    assert SentAfter(s.sent[k], start, s.rounds, k);
    assert Answers(env, start.tools, s.rounds[j]);
  }

  lemma AnsweredWithin(before: seq<Message>, talk: seq<Message>, from: nat, round: Round)
    requires Complete(round) && from + |round.results| < |talk| && talk[from] == Assistant(round.calls)
    requires talk[from + 1..from + 1 + |round.results|] == ToolMessages(round.results)
    ensures AnsweredInOrder(before + talk, round, |before| + from)
  {
    var at := |before| + from;
    assert (before + talk)[at + 1..at + 1 + |round.calls|] == talk[from + 1..from + 1 + |round.results|];
  }

  lemma {:induction false} TalkHolds(rounds: seq<Round>, j: nat)
    requires j < |rounds|
    ensures var from := |Talk(rounds[..j])|;
      && from + |rounds[j].results| < |Talk(rounds)|
      && Talk(rounds)[from] == Assistant(rounds[j].calls)
      && Talk(rounds)[from + 1..from + 1 + |rounds[j].results|] == ToolMessages(rounds[j].results)
    decreases |rounds|
  {
    var prefix := rounds[..|rounds| - 1];
    if j < |prefix| {
      TalkHolds(prefix, j);
      assert prefix[..j] == rounds[..j];
    } else {
      assert rounds[..j] == prefix;
    }
  }

  function Offered(tools: set<Name>, calls: seq<Call>): seq<Call> {
    if calls == [] then []
    else
      var before, last := Offered(tools, calls[..|calls| - 1]), calls[|calls| - 1];
      if last.name in tools then before + [last] else before
  }

  function CallsOf(executed: seq<Execution>): seq<Call> {
    seq(|executed|, i requires 0 <= i < |executed| => executed[i].call)
  }

  lemma {:induction false} OfferedRunInOrder(
    tools: set<Name>, revision: nat, calls: seq<Call>, results: seq<ToolResult>)
    requires |calls| == |results|
    ensures CallsOf(ExecutedBy(tools, revision, calls, results)) == Offered(tools, calls)
    decreases |results|
  {
    if results != [] {
      OfferedRunInOrder(tools, revision, calls[..|calls| - 1], results[..|results| - 1]);
    }
  }

  /**
   * Over a whole turn the tools run are exactly the offered ones among the
   * answered calls, each once, in the order the model asked; the outcomes name
   * those calls, and each was checked against cancellation and the deadline.
   */
  lemma OfferedCallsRun(
    env: Environment, s: Turn, start: CompletionRequest, revision: nat, b: ResourceBudget, maxContextTokens: u64,
    outcome: TurnOutcome)
    requires TurnContract(env, s, start, revision, b, maxContextTokens, outcome)
    ensures |outcome.toolCalls| == |outcome.toolResults| == |s.answeredAt| <= |AllCalls(s.rounds)|
      && |s.sentAt| == |s.sent|
    ensures CallsOf(s.executed) == Offered(start.tools, AllCalls(s.rounds)[..|outcome.toolResults|])
    ensures forall k :: 0 <= k < |outcome.toolCalls| ==>
      outcome.toolCalls[k].callId == AllCalls(s.rounds)[k].id && outcome.toolCalls[k].name == AllCalls(s.rounds)[k].name
    ensures forall k :: 0 <= k < |s.sentAt| ==>
      !env.cancelled(s.sentAt[k]) && env.elapsedMs(s.sentAt[k]) <= b.maxElapsedMs
    ensures forall k :: 0 <= k < |s.answeredAt| ==>
      !env.cancelled(s.answeredAt[k]) && env.elapsedMs(s.answeredAt[k]) <= b.maxElapsedMs
  {
    hide Running, Justified, StopsAtOnce, AllCalls, AllAdvanced, ExecutedBy, Reckoned, Overran;
    OfferedRunInOrder(start.tools, revision, AllCalls(s.rounds)[..|s.results|], s.results);
    forall k | 0 <= k < |s.sentAt|
      ensures !env.cancelled(s.sentAt[k]) && env.elapsedMs(s.sentAt[k]) <= b.maxElapsedMs
    {
      assert SentAs(env, s, start, b, maxContextTokens, k);
    }
    forall k | 0 <= k < |s.answeredAt|
      ensures !env.cancelled(s.answeredAt[k]) && env.elapsedMs(s.answeredAt[k]) <= b.maxElapsedMs
      ensures s.outcomes[k].callId == AllCalls(s.rounds)[k].id && s.outcomes[k].name == AllCalls(s.rounds)[k].name
    {
      assert AnswerAt(env, s, start.tools, AllCalls(s.rounds), revision, b, k);
    }
  }

  ghost predicate SendsOrResponds(rounds: seq<Round>, m: nat) {
    exists k :: 0 <= k < |rounds| && Elapsed(rounds[..k]) + 1 <= m <= Elapsed(rounds[..k]) + 2
  }

  /** Every moment of the rounds is one of their sendings, responses or answers. */
  lemma {:induction false} MomentsCovered(rounds: seq<Round>, m: nat)
    requires 1 <= m <= Elapsed(rounds)
    ensures SendsOrResponds(rounds, m) || m in AnswerTimes(rounds)
    decreases |rounds|
  {
    var before, n := rounds[..|rounds| - 1], |rounds[|rounds| - 1].results|;
    if m <= Elapsed(before) {
      MomentsCovered(before, m);
      if k :| 0 <= k < |before| && Elapsed(before[..k]) + 1 <= m <= Elapsed(before[..k]) + 2 {
        assert before[..k] == rounds[..k];
      }
    } else if m > Elapsed(before) + 2 {
      assert AnswerTimes(rounds)[|AnswerTimes(before)| + (m - Elapsed(before) - 3)] == m;
    } else {
      assert rounds[..|before|] == before;
    }
  }

  lemma {:induction false} TimesAscend(rounds: seq<Round>)
    ensures forall i, j :: 0 <= i < j < |AnswerTimes(rounds)| ==> AnswerTimes(rounds)[i] < AnswerTimes(rounds)[j]
    ensures forall i :: 0 <= i < |AnswerTimes(rounds)| ==> 1 <= AnswerTimes(rounds)[i] <= Elapsed(rounds)
    ensures forall j, k :: 0 <= j < k <= |rounds| ==> Elapsed(rounds[..j]) + 2 <= Elapsed(rounds[..k])
    decreases |rounds|
  {
    if rounds != [] {
      var before := rounds[..|rounds| - 1];
      TimesAscend(before);
      forall j, k | 0 <= j < k <= |rounds|
        ensures Elapsed(rounds[..j]) + 2 <= Elapsed(rounds[..k])
      {
        assert rounds[..j] == before[..j];
        if k < |rounds| {
          assert rounds[..k] == before[..k];
        } else {
          assert rounds[..k] == rounds && before[..|before|] == before;
        }
      }
    }
  }

  /**
   * The moments of a turn ascend with its log, and at every one before the
   * last the deadline had not passed and, unless a response was taken then,
   * cancellation was not seen: what is seen at a check ends the turn there.
   */
  lemma NothingAfterCancellation(
    env: Environment, s: Turn, start: CompletionRequest, revision: nat, b: ResourceBudget, maxContextTokens: u64,
    outcome: TurnOutcome)
    requires TurnContract(env, s, start, revision, b, maxContextTokens, outcome)
    ensures forall j, k :: 0 <= j < k < |s.sentAt| ==> s.sentAt[j] < s.sentAt[k]
    ensures forall j, k :: 0 <= j < k < |s.answeredAt| ==> s.answeredAt[j] < s.answeredAt[k]
    ensures forall m :: m in s.sentAt || m in s.answeredAt ==> 1 <= m <= s.tick
    ensures forall m: nat :: 1 <= m < s.tick ==>
      env.elapsedMs(m) <= b.maxElapsedMs && (env.cancelled(m) ==> m - 1 in s.sentAt)
    ensures |s.sent| == |s.rounds| && s.tick > Elapsed(s.rounds) && env.cancelled(s.tick) ==> outcome.status.Cancelled?
  {
    hide Justified, StopsAtOnce, Traced, Running, Reckoned, Overran, Clocked, Elapsed;
    RunningTells(env, s, start, revision, b);
    ClockAscends(s);
    forall m: nat | 1 <= m < s.tick
      ensures env.elapsedMs(m) <= b.maxElapsedMs && (env.cancelled(m) ==> m - 1 in s.sentAt)
    {
      MomentsCovered(s.rounds, m);
      MomentCleared(env, s, start, revision, b, maxContextTokens, m);
    }
  }

  lemma ClockAscends(s: Turn)
    requires OnTime(s)
    ensures forall j, k :: 0 <= j < k < |s.sentAt| ==> s.sentAt[j] < s.sentAt[k]
    ensures forall j, k :: 0 <= j < k < |s.answeredAt| ==> s.answeredAt[j] < s.answeredAt[k]
    ensures forall m :: m in s.sentAt ==> 1 <= m <= Elapsed(s.rounds) + 1
    ensures |s.sentAt| == |s.rounds| ==> forall m :: m in s.sentAt ==> m <= Elapsed(s.rounds)
    ensures forall m :: m in s.answeredAt ==> 1 <= m <= Elapsed(s.rounds)
  {
    TimesAscend(s.rounds);
    hide Elapsed, AnswerTimes;
    assert s.rounds[..|s.rounds|] == s.rounds;
    forall k | 0 <= k < |s.sentAt|
      ensures s.sentAt[k] <= Elapsed(s.rounds) + if k < |s.rounds| then 0 else 1
    {
      assert s.sentAt[k] == Elapsed(s.rounds[..k]) + 1;
    }
  }

  lemma MomentCleared(
    env: Environment, s: Turn, start: CompletionRequest, revision: nat, b: ResourceBudget, maxContextTokens: u64,
    m: nat)
    requires Traced(env, s, start, revision, b, maxContextTokens) && OnTime(s) && |s.replies| == |s.rounds|
    requires SendsOrResponds(s.rounds, m) || m in AnswerTimes(s.rounds)
    ensures env.elapsedMs(m) <= b.maxElapsedMs && (env.cancelled(m) ==> m - 1 in s.sentAt)
  {
    hide Elapsed, AnswerTimes, SentRight, AnsweredRight;
    if m in AnswerTimes(s.rounds) {
      assert m in s.answeredAt;
      hide Clocked, SendsOrResponds;
      var i :| 0 <= i < |s.answeredAt| && s.answeredAt[i] == m;
      AnswerCleared(env, s, start, revision, b, i);
    } else {
      var k := TakenBySending(s, m);
      hide Clocked, SendsOrResponds;
      SendingCleared(env, s, start, b, maxContextTokens, k);
    }
  }

  lemma TakenBySending(s: Turn, m: nat) returns (k: nat)
    requires OnTime(s) && SendsOrResponds(s.rounds, m)
    ensures k < |s.rounds| <= |s.sentAt| && s.sentAt[k] in s.sentAt && (m == s.sentAt[k] || m == s.sentAt[k] + 1)
  {
    hide Elapsed, AnswerTimes;
    k :| 0 <= k < |s.rounds| && Elapsed(s.rounds[..k]) + 1 <= m <= Elapsed(s.rounds[..k]) + 2;
  }

  lemma AnswerCleared(
    env: Environment, s: Turn, start: CompletionRequest, revision: nat, b: ResourceBudget, i: nat)
    requires AnsweredRight(env, s, start, revision, b) && i < |s.answeredAt|
    ensures !env.cancelled(s.answeredAt[i]) && env.elapsedMs(s.answeredAt[i]) <= b.maxElapsedMs
  {
    hide AllCalls, AllAdvanced, ExecutedBy, ResultOf;
    assert AnswerAt(env, s, start.tools, AllCalls(s.rounds), revision, b, i);
  }

  lemma SendingCleared(
    env: Environment, s: Turn, start: CompletionRequest, b: ResourceBudget, maxContextTokens: u64, k: nat)
    requires SentRight(env, s, start, b, maxContextTokens) && k < |s.replies|
    ensures !env.cancelled(s.sentAt[k]) && env.elapsedMs(s.sentAt[k]) <= b.maxElapsedMs
    ensures env.elapsedMs(s.sentAt[k] + 1) <= b.maxElapsedMs
  {
    hide UsageOf, CapFor, CapBefore;
    assert SentAs(env, s, start, b, maxContextTokens, k);
    assert Accepted(env, s.sent[k], s.sentAt[k], s.replies[..k], s.replies[k], b);
  }

  /** Output caps stay within what remains and never rise. */
  lemma CapsNeverRise(
    env: Environment, s: Turn, start: CompletionRequest, revision: nat, b: ResourceBudget, maxContextTokens: u64,
    outcome: TurnOutcome, j: nat, k: nat)
    requires TurnContract(env, s, start, revision, b, maxContextTokens, outcome) && j < k < |s.sent|
    ensures s.sent[j].maxOutputTokens.Some? && s.sent[k].maxOutputTokens.Some? && |s.spent| == |s.sent|
    ensures s.sent[k].maxOutputTokens.value <= s.sent[j].maxOutputTokens.value
    ensures s.sent[k].maxOutputTokens.value <= b.maxOutputTokens - s.spent[k]
    ensures s.spent[j] <= s.spent[k] <= outcome.usage.outputTokens
  {}
}
