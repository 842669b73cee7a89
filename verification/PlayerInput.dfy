/**
 * One player input: narrator rounds, each followed by a topology change, a
 * batch of character decisions or a plan of character turns, until the
 * narrator tells the story.
 */
module PlayerInputs {
  import opened Outcomes
  import opened Budgets
  import opened Orchestrations
  import opened NpcDecisions
  import Runner

  datatype TurnRequest = TurnRequest(requestId: nat, actorId: ActorId, sceneId: nat)

  datatype NpcTurnStatus =
    | Completed
    | Stale
    | RejectedTurn
    | CancelledTurn
    | Exhausted(reason: BudgetReason)
    | FailedTurn

  datatype NpcTurnResult = NpcTurnResult(requestId: nat, actorId: ActorId, status: NpcTurnStatus)

  /** What is found when a character's turn is about to start. */
  datatype Readiness =
    | Unregistered
    | ProfileChanged
    | SceneChanged
    | ContextGone
    | ServiceBroken
    | Ready

  datatype TopologyReply = Applied | Refused | Broken

  /** What a narrator turn leaves to be done. */
  datatype Left = Left(topology: Option<TopologyReply>, decisions: seq<PendingDecision>, turns: seq<TurnRequest>)

  datatype Environment = Environment(world: World, left: nat -> Left, readiness: (nat, TurnRequest) -> Readiness)

  datatype Limits = Limits(
    orchestration: OrchestrationBudget, turn: ResourceBudget, maxContextTokens: u64, policy: Policy)

  datatype PlayerOutcome = PlayerOutcome(npcResults: seq<NpcTurnResult>, usage: Usage)

  /** Decisions queued by a turn were made at or before the revision now current. */
  ghost predicate Sensible(env: Environment) {
    && Advancing(env.world)
    && (forall tick, i :: 0 <= i < |env.left(tick).decisions| ==>
      env.left(tick).decisions[i].revision <= env.world.revision(tick))
  }

  /** One result per planned request, in plan order. */
  ghost predicate Fulfilled(plan: seq<TurnRequest>, results: seq<NpcTurnResult>) {
    |results| == |plan|
    && forall i :: 0 <= i < |plan| ==>
      results[i].requestId == plan[i].requestId && results[i].actorId == plan[i].actorId
  }

  predicate DistinctRequests(plan: seq<TurnRequest>) {
    forall i, j :: 0 <= i < j < |plan| ==> plan[i].requestId != plan[j].requestId
  }

  function Unstarted(request: TurnRequest, status: NpcTurnStatus): NpcTurnResult {
    NpcTurnResult(request.requestId, request.actorId, status)
  }

  /** `npc_output`: the status a finished turn reports. */
  function NpcOutput(outcome: Runner.TurnOutcome): NpcTurnStatus {
    match outcome.status
    case Completed => if outcome.finalText.Some? then NpcTurnStatus.Completed else FailedTurn
    case Cancelled => CancelledTurn
    case BudgetExhausted(reason) => Exhausted(reason)
    case Failed(_) => FailedTurn
  }

  // ------------------------------------------------------------- one plan

  /** The status of a request whose turn never starts, if that is settled before trying. */
  function UnstartedStatus(
    env: Environment, request: TurnRequest, failure: Option<BudgetReason>, tick: nat): Option<NpcTurnStatus>
  {
    if env.world.cancelled(tick) then Some(CancelledTurn)
    else if failure.Some? then Some(Exhausted(failure.value))
    else
      match env.readiness(tick, request)
      case Unregistered => Some(RejectedTurn)
      case ProfileChanged => Some(Stale)
      case SceneChanged => Some(Stale)
      case ContextGone => Some(Stale)
      case _ => None
  }

  /** An agent's turn at a moment came to this outcome. */
  ghost predicate TurnRan(env: Environment, limits: Limits, tick: nat, log: Runner.Turn, outcome: Runner.TurnOutcome) {
    Runner.TurnContract(env.world.turn(tick), log, env.world.request(tick), env.world.revision(tick), limits.turn,
      limits.maxContextTokens, outcome)
  }

  lemma TurnCame(env: Environment, limits: Limits, tick: nat, log: Runner.Turn, outcome: Runner.TurnOutcome)
    requires Runner.TurnContract(env.world.turn(tick), log, env.world.request(tick), env.world.revision(tick),
      limits.turn, limits.maxContextTokens, outcome)
    ensures TurnRan(env, limits, tick, log, outcome)
  {
    hide Runner.TurnContract;
  }

  ghost predicate CameTo(env: Environment, limits: Limits, tick: nat, outcome: Runner.TurnOutcome) {
    exists log :: TurnRan(env, limits, tick, log, outcome)
  }

  /** The status tells how a turn ended that no budget ended: with a text, by cancellation, or otherwise. */
  ghost predicate StatusOf(status: NpcTurnStatus, outcome: Runner.TurnOutcome) {
    && !outcome.status.BudgetExhausted?
    && (status == NpcTurnStatus.Completed <==> outcome.status.Completed? && outcome.finalText.Some?)
    && (status == CancelledTurn <==> outcome.status.Cancelled?)
    && (status == FailedTurn <==> outcome.status.Failed? || (outcome.status.Completed? && outcome.finalText.None?))
  }

  /** The character's turn ran, and the status tells how it ended. */
  ghost predicate RanTo(env: Environment, limits: Limits, tick: nat, status: NpcTurnStatus) {
    exists outcome :: CameTo(env, limits, tick, outcome) && StatusOf(status, outcome)
  }

  /**
   * The result of a request served with no failure before it. Cancellation
   * comes first; then an actor that is not registered is rejected, one whose
   * profile, scene or context is no longer what was planned is stale, and any
   * other has its turn.
   */
  ghost predicate Served(env: Environment, limits: Limits, request: TurnRequest, tick: nat, result: NpcTurnResult) {
    var at := tick + 1;
    && result.requestId == request.requestId && result.actorId == request.actorId
    && if env.world.cancelled(at) then result.status == CancelledTurn
       else
         match env.readiness(at, request)
         case Unregistered => result.status == RejectedTurn
         case ProfileChanged => result.status == Stale
         case SceneChanged => result.status == Stale
         case ContextGone => result.status == Stale
         case ServiceBroken => false
         case Ready => RanTo(env, limits, at, result.status)
  }

  /** What each status of a served request means. */
  lemma StatusesMean(env: Environment, limits: Limits, request: TurnRequest, tick: nat, result: NpcTurnResult)
    requires Served(env, limits, request, tick, result)
    ensures var cancelled, ready := env.world.cancelled(tick + 1), env.readiness(tick + 1, request);
      && (result.status == RejectedTurn <==> !cancelled && ready.Unregistered?)
      && (result.status == Stale <==>
        !cancelled && (ready.ProfileChanged? || ready.SceneChanged? || ready.ContextGone?))
      && (result.status == NpcTurnStatus.Completed || result.status == FailedTurn ==> !cancelled && ready.Ready?)
      && (!cancelled && ready.Ready? ==> exists outcome ::
            && CameTo(env, limits, tick + 1, outcome) && !outcome.status.BudgetExhausted?
            && (result.status == NpcTurnStatus.Completed <==> outcome.status.Completed? && outcome.finalText.Some?)
            && (result.status == CancelledTurn <==> outcome.status.Cancelled?))
      && !result.status.Exhausted?
  {
    hide CameTo;
    if !env.world.cancelled(tick + 1) && env.readiness(tick + 1, request).Ready? {
      var outcome :| CameTo(env, limits, tick + 1, outcome) && StatusOf(result.status, outcome);
    }
  }

  /** A finished plan: every request served, at ascending moments. */
  ghost predicate AllServed(
    env: Environment, limits: Limits, plan: seq<TurnRequest>, results: seq<NpcTurnResult>, moments: seq<nat>)
  {
    && |results| == |plan| && |moments| == |plan| + 1
    && (forall k :: 0 <= k < |plan| ==>
          Served(env, limits, plan[k], moments[k], results[k]) && moments[k] < moments[k + 1])
  }

  /** One planned request: a result without a turn, or one turn and its status. */
  method RunRequest(
    env: Environment, request: TurnRequest, failure0: Option<BudgetReason>, tick0: nat, state: OrchestrationState,
    limits: Limits)
    returns (r: Result<NpcTurnResult, RuntimeError>, failure: Option<BudgetReason>, tick: nat)
    requires state.Sound(limits.orchestration, limits.turn) && (state.refused ==> failure0.Some?)
    requires failure0.Some? ==> state.Caused(limits.orchestration, failure0.value)
    modifies state
    ensures failure.Some? ==> state.Caused(limits.orchestration, failure.value)
    ensures state.Sound(limits.orchestration, limits.turn) && (state.refused ==> failure.Some?)
    ensures r.Ok? ==> r.value.requestId == request.requestId && r.value.actorId == request.actorId
    // No turn starts when the status is settled beforehand; otherwise one does, unless the budget forbids it.
    ensures var settled := UnstartedStatus(env, request, failure0, tick0 + 1);
      && (settled.Some? ==>
        r == Ok(Unstarted(request, settled.value)) && state.spent == old(state.spent) && failure == failure0)
      && (settled.None? && r.Ok? ==>
            || state.spent.turns == old(state.spent.turns) + 1
            || (failure.Some? && r.value.status == Exhausted(failure.value) && state.spent == old(state.spent)))
    ensures r.Err? ==> r.error == ServiceFailed
    ensures r.Ok? && r.value.status.Exhausted? && failure0.None? ==> failure == Some(r.value.status.reason)
    ensures failure0.Some? ==> failure == failure0 && state.spent == old(state.spent)
    ensures r.Ok? && failure.None? ==> Served(env, limits, request, tick0, r.value)
    ensures r.Ok? && env.world.cancelled(tick0 + 1) ==> r.value.status == CancelledTurn
    ensures r.Ok? && !env.world.cancelled(tick0 + 1) && failure0.Some? ==>
      r.value.status == Exhausted(failure0.value)
    ensures r.Ok? && failure0.None? ==>
      var cancelled, ready := env.world.cancelled(tick0 + 1), env.readiness(tick0 + 1, request);
      && (r.value.status == RejectedTurn <==> !cancelled && ready.Unregistered?)
      && (r.value.status == Stale <==>
        !cancelled && (ready.ProfileChanged? || ready.SceneChanged? || ready.ContextGone?))
    ensures state.rounds == old(state.rounds) && tick0 < tick
  {
    hide Runner.TurnContract;
    failure, tick := failure0, tick0 + 1;
    if env.world.cancelled(tick) {
      return Ok(Unstarted(request, CancelledTurn)), failure, tick;
    }
    if failure.Some? {
      return Ok(Unstarted(request, Exhausted(failure.value))), failure, tick;
    }
    match env.readiness(tick, request) {
      case Unregistered => return Ok(Unstarted(request, RejectedTurn)), failure, tick;
      case ProfileChanged => return Ok(Unstarted(request, Stale)), failure, tick;
      case SceneChanged => return Ok(Unstarted(request, Stale)), failure, tick;
      case ContextGone => return Ok(Unstarted(request, Stale)), failure, tick;
      case ServiceBroken => return Err(ServiceFailed), failure, tick;
      case Ready =>
    }
    var stop := state.StartTurn(limits.orchestration, env.world.elapsedMs(tick), limits.turn);
    if stop.Some? {
      return Ok(Unstarted(request, Exhausted(stop.value))), stop, tick;
    }
    if env.world.fails(tick) {
      return Err(ServiceFailed), failure, tick;
    }
    var outcome;
    ghost var log;
    outcome, stop, log := state.RunAgentTurn(env.world.turn(tick), env.world.request(tick), env.world.revision(tick),
      limits.orchestration, limits.turn, limits.maxContextTokens, env.world.elapsedMs(tick + 1));
    assert TurnRan(env, limits, tick, log, outcome) && CameTo(env, limits, tick, outcome);
    failure, tick := stop, tick + 1;
    var status := NpcOutput(outcome);
    if status.Completed? && env.world.fails(tick) {
      return Err(ServiceFailed), failure, tick;
    }
    if status.Exhausted? {
      failure := Some(status.reason);
    }
    return Ok(NpcTurnResult(request.requestId, request.actorId, status)), failure, tick;
  }

  /** Every request of a plan in order; after a budget failure no more turns start, and the plan does not finish. */
  method RunPlan(env: Environment, plan: seq<TurnRequest>, tick0: nat, state: OrchestrationState, limits: Limits)
    returns (r: Result<seq<NpcTurnResult>, RuntimeError>, tick: nat, ghost moments: seq<nat>)
    requires state.Sound(limits.orchestration, limits.turn) && !state.refused
    modifies state
    ensures state.Sound(limits.orchestration, limits.turn)
    ensures r.Ok? ==> Fulfilled(plan, r.value) && !state.refused
    ensures r.Ok? ==> AllServed(env, limits, plan, r.value, moments) && moments[0] == tick0 && moments[|plan|] == tick
    ensures r.Err? ==> Interrupts(r.error) && (r.error.Budget? ==> state.Caused(limits.orchestration, r.error.reason))
    ensures state.rounds == old(state.rounds) && tick0 <= tick
  {
    hide Served;
    tick, moments := tick0, [tick0];
    var results: seq<NpcTurnResult> := [];
    var failure: Option<BudgetReason> := None;
    for i := 0 to |plan|
      invariant state.Sound(limits.orchestration, limits.turn) && (state.refused ==> failure.Some?)
      invariant failure.Some? ==> state.Caused(limits.orchestration, failure.value)
      invariant Fulfilled(plan[..i], results)
      invariant |moments| == i + 1 && moments[0] == tick0 && moments[i] == tick
      invariant failure.None? ==> AllServed(env, limits, plan[..i], results, moments)
      invariant state.rounds == old(state.rounds) && tick0 <= tick
    {
      ghost var before := tick;
      var one;
      one, failure, tick := RunRequest(env, plan[i], failure, tick, state, limits);
      if one.Err? {
        return Err(one.error), tick, moments;
      }
      assert plan[..i + 1] == plan[..i] + [plan[i]];
      if failure.None? {
        ServedMore(env, limits, plan[..i], results, moments, plan[i], one.value, tick);
      }
      results := results + [one.value];
      moments := moments + [tick];
    }
    assert plan[..|plan|] == plan;
    if env.world.cancelled(tick + 1) {
      return Err(RuntimeError.Cancelled), tick, moments;
    }
    if failure.Some? {
      return Err(Budget(failure.value)), tick, moments;
    }
    return Ok(results), tick, moments;
  }

  lemma ServedMore(
    env: Environment, limits: Limits, plan: seq<TurnRequest>, results: seq<NpcTurnResult>, moments: seq<nat>,
    request: TurnRequest, result: NpcTurnResult, tick: nat)
    requires AllServed(env, limits, plan, results, moments)
    requires Served(env, limits, request, moments[|plan|], result) && moments[|plan|] < tick
    ensures AllServed(env, limits, plan + [request], results + [result], moments + [tick])
  {
    hide Served;
  }

  // ------------------------------------------------------------ the rounds

  /** Each plan carried out so far, in order. */
  ghost function Planned(plans: seq<seq<TurnRequest>>): seq<TurnRequest> {
    if plans == [] then [] else Planned(plans[..|plans| - 1]) + plans[|plans| - 1]
  }

  function SettlementsOf(outcomes: seq<Resolved>): seq<Settlement>
    decreases |outcomes|
  {
    if outcomes == [] then []
    else
      var before, last := SettlementsOf(outcomes[..|outcomes| - 1]), outcomes[|outcomes| - 1];
      if last.status == Materialized && last.actor.Some? then before + [Settlement(last.decision, last.actor.value)]
        else before
  }

  /** Every materialisation is remembered, and no decision is materialised twice. */
  ghost predicate Remembered(outcomes: seq<Resolved>, settled: seq<Settlement>) {
    && (forall i :: 0 <= i < |outcomes| && outcomes[i].status == Materialized ==>
      WasSettled(settled, outcomes[i].decision))
    && (forall i, j :: 0 <= i < j < |outcomes| && outcomes[i].status == outcomes[j].status == Materialized ==>
          outcomes[i].decision != outcomes[j].decision)
  }

  lemma {:induction false} SettlementsHold(outcomes: seq<Resolved>, i: nat)
    requires i < |outcomes| && outcomes[i].status == Materialized && outcomes[i].actor.Some?
    ensures WasSettled(SettlementsOf(outcomes), outcomes[i].decision)
    decreases |outcomes|
  {
    var rest := outcomes[..|outcomes| - 1];
    var all := SettlementsOf(outcomes);
    if i < |rest| {
      SettlementsHold(rest, i);
      var k :| 0 <= k < |SettlementsOf(rest)| && SettlementsOf(rest)[k].decision == outcomes[i].decision;
      assert all[k].decision == outcomes[i].decision;
    } else {
      assert all[|all| - 1].decision == outcomes[i].decision;
    }
  }

  ghost predicate SettlesAs(o: Resolved, s: Settlement) {
    o.status == Materialized && o.decision == s.decision && o.actor == Some(s.actor)
  }

  /** What is remembered of a batch: each materialised decision with the actor it was given. */
  lemma {:induction false} SettlementsExactly(outcomes: seq<Resolved>, s: Settlement)
    ensures s in SettlementsOf(outcomes) <==> exists i :: 0 <= i < |outcomes| && SettlesAs(outcomes[i], s)
    decreases |outcomes|
  {
    if outcomes != [] {
      var rest := outcomes[..|outcomes| - 1];
      SettlementsExactly(rest, s);
      if i :| 0 <= i < |rest| && SettlesAs(rest[i], s) {
        assert SettlesAs(outcomes[i], s);
      }
    }
  }

  lemma RememberMore(outcomes: seq<Resolved>, settled: seq<Settlement>, batch: seq<Resolved>)
    requires Remembered(outcomes, settled) && NotRepeated(settled, batch) && Serialised(batch)
    ensures Remembered(outcomes + batch, settled + SettlementsOf(batch))
  {
    var all, longer := outcomes + batch, settled + SettlementsOf(batch);
    AtMostOneMaterialized(batch);
    forall i | 0 <= i < |all| && all[i].status == Materialized
      ensures WasSettled(longer, all[i].decision)
    {
      if i < |outcomes| {
        var k :| 0 <= k < |settled| && settled[k].decision == all[i].decision;
        assert longer[k].decision == all[i].decision;
      } else {
        SettlementsHold(batch, i - |outcomes|);
        var k :| 0 <= k < |SettlementsOf(batch)| && SettlementsOf(batch)[k].decision == all[i].decision;
        assert longer[|settled| + k].decision == all[i].decision;
      }
    }
    forall i, j | 0 <= i < j < |all| && all[i].status == Materialized && all[j].status == Materialized
      ensures all[i].decision != all[j].decision
    {
      assert i < |outcomes|;
      assert j >= |outcomes| ==> all[j] == batch[j - |outcomes|];
    }
  }

  /** What a player input records besides its answer. */
  datatype Log = Log(plans: seq<seq<TurnRequest>>, decided: seq<Resolved>, attempts: nat)

  /**
   * One round: its narrator turn, what that left and when, how the decisions
   * or the plan among it were carried out, and when that was done.
   */
  datatype Round = Round(
    narrated: Runner.TurnOutcome, at: nat, left: Left, batch: seq<Resolved>, course: Course,
    answers: seq<NpcTurnResult>, served: seq<nat>, end: nat)

  ghost function PlansOf(rounds: seq<Round>): seq<seq<TurnRequest>> {
    if rounds == [] then []
    else
      var left := rounds[|rounds| - 1].left;
      PlansOf(rounds[..|rounds| - 1]) + (if Plans(left) then [left.turns] else [])
  }

  /** All outcomes, batch by batch. */
  ghost function DecidedIn(rounds: seq<Round>): seq<Resolved> {
    if rounds == [] then [] else DecidedIn(rounds[..|rounds| - 1]) + rounds[|rounds| - 1].batch
  }

  /** What the batches settled, in order. */
  ghost function SettledIn(rounds: seq<Round>): seq<Settlement> {
    if rounds == [] then [] else SettledIn(rounds[..|rounds| - 1]) + SettlementsOf(rounds[|rounds| - 1].batch)
  }

  /** All results, plan by plan. */
  ghost function AnswersIn(rounds: seq<Round>): seq<NpcTurnResult> {
    if rounds == [] then [] else AnswersIn(rounds[..|rounds| - 1]) + rounds[|rounds| - 1].answers
  }

  ghost function LastCount(c: Course): nat {
    if c.counts == [] then 0 else c.counts[|c.counts| - 1]
  }

  ghost function AttemptsIn(rounds: seq<Round>): nat {
    if rounds == [] then 0 else LastCount(rounds[|rounds| - 1].course)
  }

  /** The decisions of a round, if it came to them, were each judged in order in its context. */
  ghost predicate BatchRight(env: Environment, limits: Limits, settled: seq<Settlement>, attempts: nat, r: Round) {
    && |r.batch| == (if r.left.topology.None? then |r.left.decisions| else 0)
    && InOrder(r.left.decisions, r.batch) && Serialised(r.batch)
    && AllJudged(env.world, settled, r.left.decisions, limits.policy, Terms(limits.turn, limits.maxContextTokens),
      r.batch,
      r.course)
    && r.course.moments[0] == r.at && r.course.counts[0] == attempts && r.course.moments[|r.batch|] <= r.end
  }

  /** The plan of a round, if it came to it, was served in order. */
  ghost predicate PlanRight(env: Environment, limits: Limits, r: Round) {
    var plan := if Plans(r.left) then r.left.turns else [];
    AllServed(env, limits, plan, r.answers, r.served) && r.served[0] == r.at && r.served[|plan|] <= r.end
  }

  /** A completed narrator turn; it has to have spoken once there is nothing but a plan to carry out. */
  ghost predicate NarratedRight(env: Environment, limits: Limits, r: Round) {
    && r.at > 0 && CameTo(env, limits, r.at - 1, r.narrated) && r.narrated.status.Completed?
    && (r.left.topology.None? && r.left.decisions == [] ==> r.narrated.finalText.Some?)
  }

  /** A round after its narrator turn left what was queued at its moment, and carried that out by its end. */
  ghost predicate RoundRight(env: Environment, limits: Limits, settled: seq<Settlement>, attempts: nat, r: Round) {
    && env.left(r.at) == r.left && r.at <= r.end
    && BatchRight(env, limits, settled, attempts, r) && PlanRight(env, limits, r)
  }

  /**
   * Every round was carried out in turn: one after the other, each in the
   * context of those before it, nothing after the last.
   */
  ghost predicate CarriedOut(
    env: Environment, limits: Limits, rounds: seq<Round>, log: Log, settled: seq<Settlement>,
    results: seq<NpcTurnResult>)
  {
    && log.plans == PlansOf(rounds) && log.decided == DecidedIn(rounds) && results == AnswersIn(rounds)
    && settled == SettledIn(rounds) && log.attempts == AttemptsIn(rounds)
    && (forall k :: 0 <= k < |rounds| ==>
      RoundRight(env, limits, SettledIn(rounds[..k]), AttemptsIn(rounds[..k]), rounds[k]))
    && (forall k :: 0 <= k < |rounds| ==> NarratedRight(env, limits, rounds[k]))
    && (forall j, k :: 0 <= j < k < |rounds| ==> rounds[j].end < rounds[k].at)
    && (forall k :: 0 <= k < |rounds| - 1 ==> !Done(rounds[k].left))
  }

  /** A round plans turns only when nothing else is to be done first. */
  predicate Plans(left: Left) {
    left.topology.None? && left.decisions == [] && left.turns != []
  }

  /** Nothing is left to be done, so the narrator's text is the answer. */
  predicate Done(left: Left) {
    left.topology.None? && left.decisions == [] && left.turns == []
  }

  datatype Story = Continue | Told

  /** The decisions of one round. */
  method ResolveRound(
    env: Environment, narrated: Runner.TurnOutcome, left: Left, settled0: seq<Settlement>, log0: Log, tick0: nat,
    state: OrchestrationState, limits: Limits)
    returns (r: Result<Story, RuntimeError>, settled: seq<Settlement>, log: Log, tick: nat, ghost round: Round)
    requires Sensible(env) && left == env.left(tick0) && left.topology.None? && left.decisions != []
    requires state.Sound(limits.orchestration, limits.turn) && !state.refused
    requires Remembered(log0.decided, settled0) && log0.attempts <= limits.policy.maxGenerated
    modifies state
    ensures state.Sound(limits.orchestration, limits.turn) && (r.Ok? ==> !state.refused)
    ensures r.Ok? ==> r.value.Continue? && Remembered(log.decided, settled)
    ensures r.Ok? ==> MovesOn(env, limits, narrated, tick0, left, settled0, log0, settled, log, tick, round)
    ensures log.plans == log0.plans && round.answers == []
    ensures r.Err? ==> Interrupts(r.error) && (r.error.Budget? ==> state.Caused(limits.orchestration, r.error.reason))
    ensures log0.attempts <= log.attempts <= limits.policy.maxGenerated && tick0 <= tick
    ensures state.rounds == old(state.rounds)
  {
    hide Serialised, NotRepeated, Remembered, AllJudged, Advancing;
    settled, log := settled0, log0;
    var resolved, attempts;
    ghost var course;
    resolved, tick, attempts, course := ResolveDecisions(env.world, left.decisions, settled0, limits.policy, tick0,
      log0.attempts, state, limits.orchestration, limits.turn, limits.maxContextTokens);
    log := log.(attempts := attempts);
    if resolved.Err? {
      return Err(resolved.error), settled, log, tick, Round(narrated, tick0, left, [], course, [], [], tick);
    }
    RememberMore(log0.decided, settled0, resolved.value);
    settled := settled0 + SettlementsOf(resolved.value);
    log := log.(decided := log0.decided + resolved.value);
    round := Round(narrated, tick0, left, resolved.value, course, [], [tick0], tick);
    CourseEnds(env.world, settled0, left.decisions, limits.policy, Terms(limits.turn, limits.maxContextTokens),
      resolved.value, course);
    return Ok(Continue), settled, log, tick, round;
  }

  lemma CourseEnds(
    w: World, settled: seq<Settlement>, pending: seq<PendingDecision>, policy: Policy, terms: Terms,
    outcomes: seq<Resolved>, c: Course)
    requires AllJudged(w, settled, pending, policy, terms, outcomes, c)
    ensures |c.moments| == |c.counts| == |outcomes| + 1 && LastCount(c) == c.counts[|outcomes|]
  {
    hide JudgedAt;
  }

  /** How a finished round moves settlements, log and clock on. */
  ghost predicate MovesOn(
    env: Environment, limits: Limits, narrated: Runner.TurnOutcome, at: nat, left: Left, settled0: seq<Settlement>,
    log0: Log, settled: seq<Settlement>, log: Log, tick: nat, round: Round)
  {
    && round.narrated == narrated && round.at == at && round.left == left && round.end <= tick
    && RoundRight(env, limits, settled0, log0.attempts, round)
    && log.decided == log0.decided + round.batch && settled == settled0 + SettlementsOf(round.batch)
    && log.attempts == LastCount(round.course)
  }

  /** One round after its narrator turn: topology first, then decisions, then the plan. */
  method FinishRound(
    env: Environment, outcome: Runner.TurnOutcome, left: Left, settled0: seq<Settlement>, results0: seq<NpcTurnResult>,
    log0: Log, tick0: nat, state: OrchestrationState, limits: Limits)
    returns (r: Result<Story, RuntimeError>, settled: seq<Settlement>, results: seq<NpcTurnResult>, log: Log,
      tick: nat, ghost round: Round)
    requires Sensible(env) && left == env.left(tick0)
    requires state.Sound(limits.orchestration, limits.turn) && !state.refused
    requires Fulfilled(Planned(log0.plans), results0) && Remembered(log0.decided, settled0)
    requires log0.attempts <= limits.policy.maxGenerated
    modifies state
    ensures state.Sound(limits.orchestration, limits.turn) && (r.Ok? ==> !state.refused)
    ensures r.Ok? ==> Fulfilled(Planned(log.plans), results) && Remembered(log.decided, settled)
    ensures r.Ok? ==>
      && (r.value.Told? <==> left.topology.None? && left.decisions == [] && left.turns == [])
      && (left.topology.None? && left.decisions == [] ==> outcome.finalText.Some?)
    ensures r.Ok? ==>
      log.plans == log0.plans
        + (if left.topology.None? && left.decisions == [] && left.turns != [] then [left.turns] else [])
    ensures r.Ok? ==>
      && MovesOn(env, limits, outcome, tick0, left, settled0, log0, settled, log, tick, round)
      && results == results0 + round.answers
    ensures r.Ok? && left.topology.Some? ==>
      log == log0 && settled == settled0 && results == results0 && state.spent == old(state.spent)
    ensures r.Err? ==> r.error != BridgeUnavailable
    ensures r.Err? && r.error.Budget? ==> state.Caused(limits.orchestration, r.error.reason)
    ensures r == Err(InvalidPlan) ==>
      exists i, j :: 0 <= i < j < |left.turns| && left.turns[i].requestId == left.turns[j].requestId
    ensures r.Ok? && left.topology.None? && left.decisions == [] ==>
      forall i, j :: 0 <= i < j < |left.turns| ==> left.turns[i].requestId != left.turns[j].requestId
    ensures r == Err(ModelProtocol) ==> outcome.finalText.None?
    ensures log0.attempts <= log.attempts <= limits.policy.maxGenerated && tick0 <= tick
    ensures state.rounds == old(state.rounds)
  {
    hide Serialised, NotRepeated, Remembered, AllJudged, AllServed, Advancing, MovesOn, Fulfilled, Planned;
    settled, results, log, tick := settled0, results0, log0, tick0;
    round := Round(outcome, tick0, left, [], Course([tick0], [log0.attempts]), [], [tick0], tick0);
    if left.topology.None? && left.decisions != [] {
      r, settled, log, tick, round := ResolveRound(env, outcome, left, settled0, log0, tick0, state, limits);
      return;
    }
    NothingToCarryOut(env, limits, outcome, tick0, left, settled0, log0, round);
    assert log0.plans + [] == log0.plans && results0 + [] == results0;
    if left.topology.Some? {
      return if left.topology.value.Broken? then Err(ServiceFailed)
        else Ok(Continue), settled, results, log, tick, round;
    }
    if outcome.finalText.None? {
      return Err(ModelProtocol), settled, results, log, tick, round;
    }
    if !DistinctRequests(left.turns) {
      return Err(InvalidPlan), settled, results, log, tick, round;
    }
    if left.turns == [] {
      return if env.world.fails(tick) then Err(ServiceFailed) else Ok(Told), settled, results, log, tick, round;
    }
    var answered;
    ghost var moments;
    answered, tick, moments := RunPlan(env, left.turns, tick, state, limits);
    if answered.Err? {
      return Err(answered.error), settled, results, log, tick, round;
    }
    PlanCarriedOut(env, limits, outcome, tick0, left, settled0, log0, answered.value, moments, tick);
    FulfilledMore(log0.plans, results0, left.turns, answered.value);
    round := round.(answers := answered.value, served := moments, end := tick);
    log := log.(plans := log.plans + [left.turns]);
    results := results + answered.value;
    return Ok(Continue), settled, results, log, tick, round;
  }

  lemma FulfilledMore(
    plans: seq<seq<TurnRequest>>, results: seq<NpcTurnResult>, plan: seq<TurnRequest>, answers: seq<NpcTurnResult>)
    requires Fulfilled(Planned(plans), results) && Fulfilled(plan, answers)
    ensures Fulfilled(Planned(plans + [plan]), results + answers)
  {
    assert (plans + [plan])[..|plans|] == plans;
  }

  /** A round that comes to neither decisions nor a plan is over at once. */
  lemma NothingToCarryOut(
    env: Environment, limits: Limits, narrated: Runner.TurnOutcome, at: nat, left: Left, settled: seq<Settlement>,
    log: Log, round: Round)
    requires left == env.left(at) && (left.topology.Some? || left.decisions == [])
    requires round == Round(narrated, at, left, [], Course([at], [log.attempts]), [], [at], at)
    ensures !Plans(left) ==> MovesOn(env, limits, narrated, at, left, settled, log, settled, log, at, round)
  {
    assert log.decided + [] == log.decided && settled + SettlementsOf([]) == settled;
  }

  lemma PlanCarriedOut(
    env: Environment, limits: Limits, narrated: Runner.TurnOutcome, at: nat, left: Left, settled: seq<Settlement>,
    log: Log, answers: seq<NpcTurnResult>, moments: seq<nat>, tick: nat)
    requires left == env.left(at) && Plans(left) && at <= tick
    requires AllServed(env, limits, left.turns, answers, moments)
    requires moments[0] == at && moments[|left.turns|] == tick
    ensures var round := Round(narrated, at, left, [], Course([at], [log.attempts]), answers, moments, tick);
      MovesOn(env, limits, narrated, at, left, settled, log, settled, log.(plans := log.plans + [left.turns]), tick,
        round)
  {
    hide Served;
    assert log.decided + [] == log.decided && settled + SettlementsOf([]) == settled;
  }

  /**
   * `handle_valid_player_input`. It always ends. Rounds and started turns stay
   * within their limits; for limits below the integer maximum the model and
   * tool calls of all its turns exceed the orchestration limit by at most one
   * turn's limit; every planned request has exactly one result in plan order,
   * every decision its verdict in its round's turn; no decision is
   * materialised twice and generation stays within its policy.
   */
  method HandlePlayerInput(env: Environment, limits: Limits)
    returns (r: Result<PlayerOutcome, RuntimeError>, state: OrchestrationState, settled: seq<Settlement>, log: Log,
      ghost rounds: seq<Round>, ghost stopped: Option<Runner.TurnOutcome>)
    requires Sensible(env)
    ensures fresh(state) && state.Sound(limits.orchestration, limits.turn)
    ensures log.attempts <= limits.policy.maxGenerated
    ensures r.Ok? ==> Fulfilled(Planned(log.plans), r.value.npcResults) && Remembered(log.decided, settled)
    ensures r.Ok? ==>
      r.value.usage == state.usage && |rounds| == state.rounds
        && CarriedOut(env, limits, rounds, log, settled, r.value.npcResults)
    ensures r.Ok? ==> rounds != [] && var last := rounds[|rounds| - 1].left;
      last.topology.None? && last.decisions == [] && last.turns == []
    // A narrator turn that does not complete ends the input for the same reason.
    ensures stopped.Some? ==>
      && r.Err? && !stopped.value.status.Completed?
      && (r.error == RuntimeError.Cancelled <==> stopped.value.status.Cancelled?)
      && (r.error == BridgeUnavailable <==> stopped.value.status.Failed?)
      && (forall reason :: r.error == Budget(reason) <==> stopped.value.status == Runner.BudgetExhausted(reason))
    ensures r.Err? && r.error == BridgeUnavailable ==> stopped.Some?
    ensures r.Err? && r.error.Budget? ==> state.Caused(limits.orchestration, r.error.reason)
  {
    hide NpcDecisions.Serialised, NpcDecisions.NotRepeated, NpcDecisions.Advancing, Remembered, CarriedOut, Planned,
      Fulfilled, RoundRight, NarratedRight, MovesOn, TurnRan, Runner.TurnContract;
    state := new OrchestrationState();
    settled, log, rounds := [], Log([], [], 0), [];
    var results: seq<NpcTurnResult> := [];
    var tick := 0;
    NothingRemembered();
    NothingCarried(env, limits);
    while true
      invariant fresh(state) && state.Sound(limits.orchestration, limits.turn) && !state.refused
      invariant Fulfilled(Planned(log.plans), results) && Remembered(log.decided, settled)
      invariant log.attempts <= limits.policy.maxGenerated
      invariant |rounds| == state.rounds && CarriedOut(env, limits, rounds, log, settled, results)
      invariant forall k :: 0 <= k < |rounds| ==> !Done(rounds[k].left) && rounds[k].end < tick
      decreases limits.orchestration.maxOrchestrationRounds - state.rounds
    {
      var stop := state.StartRound(limits.orchestration, env.world.elapsedMs(tick), limits.turn);
      if stop.Some? {
        return Err(Budget(stop.value)), state, settled, log, rounds, None;
      }
      stop := state.StartTurn(limits.orchestration, env.world.elapsedMs(tick), limits.turn);
      if stop.Some? {
        return Err(Budget(stop.value)), state, settled, log, rounds, None;
      }
      if env.world.fails(tick) {
        return Err(ServiceFailed), state, settled, log, rounds, None;
      }
      var outcome;
      ghost var turn;
      outcome, stop, turn := state.RunAgentTurn(env.world.turn(tick), env.world.request(tick), env.world.revision(tick),
        limits.orchestration, limits.turn, limits.maxContextTokens, env.world.elapsedMs(tick + 1));
      TurnCame(env, limits, tick, turn, outcome);
      tick := tick + 1;
      if stop.Some? {
        return Err(Budget(stop.value)), state, settled, log, rounds, None;
      }
      var left := env.left(tick);
      ghost var before, known, answered, at := log, settled, results, tick;
      if !outcome.status.Completed? {
        return Err(NotCompleted(outcome.status)), state, settled, log, rounds, Some(outcome);
      }
      var story;
      ghost var round;
      story, settled, results, log, tick, round := FinishRound(env, outcome, left, settled, results, log, tick, state,
        limits);
      if story.Err? {
        return Err(story.error), state, settled, log, rounds, None;
      }
      RoundNarrated(env, limits, turn, outcome, at, left, known, before, settled, log, tick, round);
      CarryMore(env, limits, rounds, before, known, answered, log, settled, results, tick, round);
      rounds := rounds + [round];
      if story.value.Told? {
        return Ok(PlayerOutcome(results, state.usage)), state, settled, log, rounds, None;
      }
      tick := tick + 1;
    }
  }

  /** `require_completed` for the other statuses. */
  function NotCompleted(status: Runner.TurnStatus): RuntimeError
    requires !status.Completed?
  {
    match status
    case Cancelled => RuntimeError.Cancelled
    case BudgetExhausted(reason) => Budget(reason)
    case Failed(_) => BridgeUnavailable
  }

  lemma NothingCarried(env: Environment, limits: Limits)
    ensures CarriedOut(env, limits, [], Log([], [], 0), [], []) && Fulfilled(Planned([]), [])
  {}

  lemma RoundNarrated(
    env: Environment, limits: Limits, turn: Runner.Turn, outcome: Runner.TurnOutcome, at: nat, left: Left,
    settled0: seq<Settlement>, log0: Log, settled: seq<Settlement>, log: Log, tick: nat, r: Round)
    requires at > 0 && TurnRan(env, limits, at - 1, turn, outcome) && outcome.status.Completed?
    requires left.topology.None? && left.decisions == [] ==> outcome.finalText.Some?
    requires MovesOn(env, limits, outcome, at, left, settled0, log0, settled, log, tick, r)
    ensures NarratedRight(env, limits, r)
    ensures r.narrated == outcome && r.at == at && r.left == left && r.end <= tick
  {
    hide TurnRan, RoundRight;
    assert CameTo(env, limits, at - 1, outcome);
  }

  lemma CarryMore(
    env: Environment, limits: Limits, rounds: seq<Round>, before: Log, known: seq<Settlement>,
    answered: seq<NpcTurnResult>, log: Log, settled: seq<Settlement>, results: seq<NpcTurnResult>, tick: nat, r: Round)
    requires CarriedOut(env, limits, rounds, before, known, answered) && NarratedRight(env, limits, r)
    requires MovesOn(env, limits, r.narrated, r.at, r.left, known, before, settled, log, tick, r)
    requires forall k :: 0 <= k < |rounds| ==> !Done(rounds[k].left) && rounds[k].end < r.at
    requires log.plans == before.plans + (if Plans(r.left) then [r.left.turns] else [])
    requires results == answered + r.answers
    ensures CarriedOut(env, limits, rounds + [r], log, settled, results)
  {
    hide RoundRight, NarratedRight;
    var all := rounds + [r];
    assert all[..|rounds|] == rounds;
    forall k | 0 <= k < |all|
      ensures RoundRight(env, limits, SettledIn(all[..k]), AttemptsIn(all[..k]), all[k])
    {
      assert all[..k] == rounds[..k];
      assert rounds[..|rounds|] == rounds;
    }
  }

  lemma NothingRemembered()
    ensures Remembered([], [])
  {}

  /** What `Sound` means for a whole player input. */
  lemma InputBounds(state: OrchestrationState, limits: Limits)
    requires state.Sound(limits.orchestration, limits.turn)
    ensures state.rounds <= limits.orchestration.maxOrchestrationRounds
    ensures state.spent.turns <= state.startedTurns <= limits.orchestration.maxStartedAgentTurns
    ensures limits.orchestration.resources.maxModelCalls < U32_MAX ==>
      state.spent.modelCalls <= limits.orchestration.resources.maxModelCalls + limits.turn.maxModelCalls
    ensures limits.orchestration.resources.maxToolCalls < U32_MAX ==>
      state.spent.toolCalls <= limits.orchestration.resources.maxToolCalls + limits.turn.maxToolCalls
  {}
}
