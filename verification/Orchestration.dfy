/**
 * What one player input may spend: rounds, started turns and the merged usage
 * of every turn, checked between turns.
 */
module Orchestrations {
  import opened Outcomes
  import opened Budgets
  import Runner

  datatype OrchestrationBudget = OrchestrationBudget(
    resources: ResourceBudget, maxStartedAgentTurns: u32, maxOrchestrationRounds: u32)

  datatype RuntimeError =
    | Budget(reason: BudgetReason)
    | Cancelled
    | InvalidPlan
    | ModelProtocol
    | BridgeUnavailable
    | ServiceFailed

  /** What the turns of this input really did, whatever the counters say. */
  datatype Spent = Spent(modelCalls: nat, toolCalls: nat, turns: nat)

  const NOTHING: Spent := Spent(0, 0, 0)

  /** At most the limit plus one turn's limit, provided the counter cannot saturate at the limit. */
  ghost predicate Bounded(calls: nat, limit: u32, turnLimit: u32) {
    limit < U32_MAX ==> calls <= limit + turnLimit
  }

  /** While no merge has been refused the counter covers the calls made, and is within its limit. */
  ghost predicate Tracked(counter: u32, calls: nat, limit: u32) {
    counter <= limit && (limit < U32_MAX ==> calls <= counter)
  }

  class OrchestrationState {
    var usage: Usage
    var startedTurns: nat
    var rounds: nat
    ghost var spent: Spent
    ghost var refused: bool    // a merge was refused: no further turn may start

    constructor ()
      ensures usage == NO_USAGE && startedTurns == 0 && rounds == 0 && spent == NOTHING && !refused
    {
      usage, startedTurns, rounds, spent, refused := NO_USAGE, 0, 0, NOTHING, false;
    }

    /** Holds throughout a player input with these budgets. */
    ghost predicate Sound(b: OrchestrationBudget, turn: ResourceBudget)
      reads this
    {
      && startedTurns <= b.maxStartedAgentTurns && rounds <= b.maxOrchestrationRounds
      && spent.turns <= startedTurns
      && Bounded(spent.modelCalls, b.resources.maxModelCalls, turn.maxModelCalls)
      && Bounded(spent.toolCalls, b.resources.maxToolCalls, turn.maxToolCalls)
      && (!refused ==>
            && Tracked(usage.modelCalls, spent.modelCalls, b.resources.maxModelCalls)
            && Tracked(usage.toolCalls, spent.toolCalls, b.resources.maxToolCalls))
    }

    /** Stopping for the number of turns or rounds means that number is used up. */
    ghost predicate Caused(b: OrchestrationBudget, reason: BudgetReason)
      reads this
    {
      && (reason == AgentTurns ==> startedTurns == b.maxStartedAgentTurns)
      && (reason == OrchestrationRounds ==> rounds == b.maxOrchestrationRounds)
    }

    /** `start_turn`. */
    method StartTurn(
      b: OrchestrationBudget, elapsedMs: u64, ghost turn: ResourceBudget) returns (stop: Option<BudgetReason>)
      requires Sound(b, turn)
      modifies this`startedTurns
      ensures Sound(b, turn)
      ensures stop.None? <==> elapsedMs <= b.resources.maxElapsedMs && old(startedTurns) < b.maxStartedAgentTurns
      ensures startedTurns == old(startedTurns) + if stop.None? then 1 else 0
      ensures stop.Some? ==> stop.value == if elapsedMs > b.resources.maxElapsedMs then Deadline else AgentTurns
    {
      if elapsedMs > b.resources.maxElapsedMs {
        return Some(Deadline);
      }
      if startedTurns >= b.maxStartedAgentTurns {
        return Some(AgentTurns);
      }
      startedTurns := startedTurns + 1;
      return None;
    }

    /** `start_round`. */
    method StartRound(
      b: OrchestrationBudget, elapsedMs: u64, ghost turn: ResourceBudget) returns (stop: Option<BudgetReason>)
      requires Sound(b, turn)
      modifies this`rounds
      ensures Sound(b, turn)
      ensures stop.None? <==> elapsedMs <= b.resources.maxElapsedMs && old(rounds) < b.maxOrchestrationRounds
      ensures rounds == old(rounds) + if stop.None? then 1 else 0
      ensures stop.Some? ==>
        stop.value == if elapsedMs > b.resources.maxElapsedMs then Deadline else OrchestrationRounds
    {
      if elapsedMs > b.resources.maxElapsedMs {
        return Some(Deadline);
      }
      if rounds >= b.maxOrchestrationRounds {
        return Some(OrchestrationRounds);
      }
      rounds := rounds + 1;
      return None;
    }

    /** `merge_reason`: past the deadline the usage is not even merged. */
    method MergeReason(other: Usage, b: OrchestrationBudget, elapsedMs: u64) returns (stop: Option<BudgetReason>)
      modifies this`usage
      ensures elapsedMs > b.resources.maxElapsedMs ==> stop == Some(Deadline) && usage == old(usage)
      ensures elapsedMs <= b.resources.maxElapsedMs ==>
        usage == Merged(old(usage), other) && stop == Excess(usage, b.resources)
    {
      if elapsedMs > b.resources.maxElapsedMs {
        return Some(Deadline);
      }
      usage := Merged(usage, other);
      return Excess(usage, b.resources);
    }

    /** Run one started turn and merge what it used. */
    method RunAgentTurn(
      env: Runner.Environment, request: Runner.CompletionRequest, revision: nat, b: OrchestrationBudget,
      turn: ResourceBudget, maxContextTokens: u64, elapsedAfterMs: u64)
      returns (outcome: Runner.TurnOutcome, stop: Option<BudgetReason>, ghost log: Runner.Turn)
      requires Sound(b, turn) && !refused && spent.turns < startedTurns
      modifies this`usage, this`spent, this`refused
      ensures Sound(b, turn) && (refused <==> stop.Some?)
      ensures stop.Some? ==> Caused(b, stop.value)
      ensures outcome.status.BudgetExhausted? ==> Caused(b, outcome.status.reason)
      ensures spent.turns == old(spent.turns) + 1
      ensures Runner.TurnContract(env, log, request, revision, turn, maxContextTokens, outcome)
      // The turn's usage is merged and checked, unless the deadline has passed.
      ensures elapsedAfterMs > b.resources.maxElapsedMs ==> stop == Some(Deadline) && usage == old(usage)
      ensures elapsedAfterMs <= b.resources.maxElapsedMs ==>
        usage == Merged(old(usage), outcome.usage) && (stop.None? <==> Within(usage, b.resources))
    {
      hide Runner.TurnContract;
      outcome, log := Runner.RunTurn(env, request, revision, turn, maxContextTokens);
      Runner.TurnLimits(env, log, request, revision, turn, maxContextTokens, outcome);
      Runner.TurnReasons(env, log, request, revision, turn, maxContextTokens, outcome);
      ghost var before := usage;
      stop := MergeReason(outcome.usage, b, elapsedAfterMs);
      MergeTracks(before.modelCalls, spent.modelCalls, |log.sent|, outcome.usage.modelCalls, b.resources.maxModelCalls,
        turn.maxModelCalls);
      MergeTracks(before.toolCalls, spent.toolCalls, |log.executed|, outcome.usage.toolCalls, b.resources.maxToolCalls,
        turn.maxToolCalls);
      spent := Spent(spent.modelCalls + |log.sent|, spent.toolCalls + |log.executed|, spent.turns + 1);
      refused := stop.Some?;
    }
  }

  /** One turn's calls keep the total bounded; the counter still covers them if it stays within the limit. */
  lemma MergeTracks(counter: u32, calls: nat, made: nat, counted: u32, limit: u32, turnLimit: u32)
    requires Tracked(counter, calls, limit) && made <= counted <= turnLimit
    ensures Bounded(calls + made, limit, turnLimit)
    ensures SaturatingAdd(counter, counted, U32_MAX) <= limit ==>
      Tracked(SaturatingAdd(counter, counted, U32_MAX), calls + made, limit)
  {}
}
