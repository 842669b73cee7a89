/** Resolving the characters a narrator turn asked for, one decision at a time. */
module NpcDecisions {
  import opened Outcomes
  import opened Budgets
  import opened Orchestrations
  import Runner

  type ActorId = nat

  datatype Target =
    | Mentioned
    | ExistingTarget(actor: ActorId)
    | Preset(character: nat)
    | Generated(policy: nat, request: nat)

  /** A decision as the narrator made it; `terms` stands for its action, controller and lifetime. */
  datatype Decision = Decision(target: Target, terms: nat)

  datatype PendingDecision = PendingDecision(callId: nat, decision: Decision, revision: nat)

  datatype Status = WasMentioned | Existing | Materialized | Rejected

  datatype Reason =
    | StaleRevision
    | ExistingTargetUnavailable
    | MaterializationLimit
    | GenerationLimit
    | PolicyUnavailable
    | NotAuthorized
    | MissingDraft
    | ModelFailure
    | WorldRefused

  datatype Resolved = Resolved(
    callId: nat, decision: Decision, status: Status, actor: Option<ActorId>, revision: nat, reason: Option<Reason>)

  /** A decision already settled earlier in this player input. */
  datatype Settlement = Settlement(decision: Decision, actor: ActorId)

  /** The world service and the models, indexed by how often they were consulted. */
  datatype World = World(
    cancelled: nat -> bool, elapsedMs: nat -> u64, fails: nat -> bool, revision: nat -> nat,
    valid: (nat, ActorId, Decision) -> bool, limited: nat -> bool, authorized: (nat, Decision) -> bool,
    definable: nat -> bool,
    turn: nat -> Runner.Environment, request: nat -> Runner.CompletionRequest, drafted: nat -> bool,
    spawn: (nat, Decision) -> Option<ActorId>)

  datatype Policy = Policy(generationPolicy: Option<nat>, maxGenerated: u32)

  /** Revisions never fall, and a successful spawn commits a new one. */
  ghost predicate Advancing(w: World) {
    && (forall i, j :: 0 <= i <= j ==> w.revision(i) <= w.revision(j))
    && (forall i: nat, d :: w.spawn(i, d).Some? ==> w.revision(i) < w.revision(i + 1))
  }

  function Reject(p: PendingDecision, revision: nat, reason: Reason): Resolved {
    Resolved(p.callId, p.decision, Rejected, None, revision, Some(reason))
  }

  function Settle(p: PendingDecision, status: Status, actor: Option<ActorId>, revision: nat): Resolved {
    Resolved(p.callId, p.decision, status, actor, revision, None)
  }

  // ------------------------------------------------------------ guarantees

  /** One outcome per decision so far, in order. */
  ghost predicate InOrder(pending: seq<PendingDecision>, outcomes: seq<Resolved>) {
    |outcomes| <= |pending|
    && forall i :: 0 <= i < |outcomes| ==>
      outcomes[i].callId == pending[i].callId && outcomes[i].decision == pending[i].decision
  }

  /** After a materialisation every later decision of the batch is rejected as stale. */
  ghost predicate Serialised(outcomes: seq<Resolved>) {
    forall i, j :: 0 <= i < j < |outcomes| && outcomes[i].status == Materialized ==>
      outcomes[j].status == Rejected && outcomes[j].reason == Some(StaleRevision)
  }

  ghost predicate WasSettled(settled: seq<Settlement>, d: Decision) {
    exists i :: 0 <= i < |settled| && settled[i].decision == d
  }

  /** No settled decision is materialised again. */
  ghost predicate NotRepeated(settled: seq<Settlement>, outcomes: seq<Resolved>) {
    forall i :: 0 <= i < |outcomes| && outcomes[i].status == Materialized ==>
      !WasSettled(settled, outcomes[i].decision) && outcomes[i].actor.Some?
  }

  predicate Settles(o: Resolved, d: Decision, actor: ActorId) {
    o.decision == d && o.actor == Some(actor) && (o.status == Materialized || o.status == Existing)
  }

  ghost predicate SettledHere(outcomes: seq<Resolved>, d: Decision, actor: ActorId) {
    exists i :: 0 <= i < |outcomes| && Settles(outcomes[i], d, actor)
  }

  /** The actor an equal decision was settled with, in an earlier batch or in this one; none if it was not. */
  ghost predicate KnownAs(settled: seq<Settlement>, outcomes: seq<Resolved>, d: Decision, actor: Option<ActorId>) {
    if actor.None? then !WasSettled(settled, d) && forall a :: !SettledHere(outcomes, d, a)
    else if WasSettled(settled, d) then Settlement(d, actor.value) in settled
    else SettledHere(outcomes, d, actor.value)
  }

  /** The first actor an earlier batch settled a decision with. */
  function FirstSettled(settled: seq<Settlement>, d: Decision): Option<ActorId> {
    if settled == [] then None
    else if settled[0].decision == d then Some(settled[0].actor)
    else FirstSettled(settled[1..], d)
  }

  /** The first actor this batch settled a decision with. */
  function FirstHere(outcomes: seq<Resolved>, d: Decision): Option<ActorId> {
    if outcomes == [] then None
    else if outcomes[0].decision == d && (outcomes[0].status == Materialized || outcomes[0].status == Existing)
      && outcomes[0].actor.Some?
    then outcomes[0].actor
    else FirstHere(outcomes[1..], d)
  }

  /** The actor an equal decision is known to stand for when it comes up. */
  function Known(settled: seq<Settlement>, outcomes: seq<Resolved>, d: Decision): Option<ActorId> {
    if FirstSettled(settled, d).Some? then FirstSettled(settled, d) else FirstHere(outcomes, d)
  }

  lemma {:induction false} FirstSettledFacts(settled: seq<Settlement>, d: Decision)
    ensures FirstSettled(settled, d).Some? <==> WasSettled(settled, d)
    ensures FirstSettled(settled, d).Some? ==> Settlement(d, FirstSettled(settled, d).value) in settled
  {
    if settled != [] {
      FirstSettledFacts(settled[1..], d);
      assert settled == [settled[0]] + settled[1..];
      if settled[0].decision == d {
        assert settled[0] == Settlement(d, settled[0].actor);
      } else if i :| 0 <= i < |settled| && settled[i].decision == d {
        assert settled[1..][i - 1].decision == d;
      }
      if i :| 0 <= i < |settled[1..]| && settled[1..][i].decision == d {
        assert settled[i + 1].decision == d;
      }
    }
  }

  lemma {:induction false} FirstHereFacts(outcomes: seq<Resolved>, d: Decision)
    ensures FirstHere(outcomes, d).Some? ==> SettledHere(outcomes, d, FirstHere(outcomes, d).value)
    ensures FirstHere(outcomes, d).None? ==> forall a :: !SettledHere(outcomes, d, a)
  {
    if outcomes != [] {
      FirstHereFacts(outcomes[1..], d);
      assert outcomes == [outcomes[0]] + outcomes[1..];
      if FirstHere(outcomes, d).Some? {
        SettledLonger(outcomes[0], outcomes[1..], d, FirstHere(outcomes, d).value);
      }
      forall a: ActorId
        ensures FirstHere(outcomes, d).None? ==> !SettledHere(outcomes, d, a)
      {
        SettledLonger(outcomes[0], outcomes[1..], d, a);
      }
    }
  }

  lemma SettledLonger(first: Resolved, rest: seq<Resolved>, d: Decision, actor: ActorId)
    ensures SettledHere([first] + rest, d, actor) <==> Settles(first, d, actor) || SettledHere(rest, d, actor)
  {
    var all := [first] + rest;
    if i :| 0 <= i < |rest| && Settles(rest[i], d, actor) {
      assert all[i + 1] == rest[i];
    }
    assert all[0] == first;
  }

  /** What is known of a decision is an earlier settlement of it, and nothing is known only if there is none. */
  lemma KnownIsEarlier(settled: seq<Settlement>, outcomes: seq<Resolved>, d: Decision)
    ensures KnownAs(settled, outcomes, d, Known(settled, outcomes, d))
  {
    FirstSettledFacts(settled, d);
    FirstHereFacts(outcomes, d);
  }

  /** The earlier settlement of a decision: first from earlier batches, then from this one. */
  method FindSettled(settled: seq<Settlement>, outcomes: seq<Resolved>, d: Decision) returns (actor: Option<ActorId>)
    ensures actor == Known(settled, outcomes, d) && KnownAs(settled, outcomes, d, actor)
  {
    KnownIsEarlier(settled, outcomes, d);
    for i := 0 to |settled|
      invariant FirstSettled(settled, d) == FirstSettled(settled[i..], d)
    {
      if settled[i].decision == d {
        return Some(settled[i].actor);
      }
      assert settled[i..][1..] == settled[i + 1..];
    }
    for i := 0 to |outcomes|
      invariant FirstHere(outcomes, d) == FirstHere(outcomes[i..], d)
    {
      var o := outcomes[i];
      if o.decision == d && (o.status == Materialized || o.status == Existing) && o.actor.Some? {
        return o.actor;
      }
      assert outcomes[i..][1..] == outcomes[i + 1..];
    }
    return None;
  }

  // -------------------------------------------------------------- resolving

  /** What one decision leads to, and where the clock and the counters stand then. */
  ghost predicate Step(w: World, p: PendingDecision, o: Resolved, tick: nat, after: nat) {
    && tick <= after
    && o.callId == p.callId && o.decision == p.decision
    && (o.status == Materialized ==>
          o.actor.Some? && p.revision == w.revision(tick) && w.revision(tick) < w.revision(after))
    && (p.revision != w.revision(tick) ==> o.status == Rejected && o.reason == Some(StaleRevision))
  }

  /** What may interrupt a batch: a budget, the player, or the world service. */
  predicate Interrupts(error: RuntimeError) {
    error.Budget? || error == RuntimeError.Cancelled || error == ServiceFailed
  }

  /** Spawning at a moment gives the materialised actor, or a rejection. */
  ghost predicate Spawned(w: World, p: PendingDecision, tick: nat, o: Resolved) {
    var actor := w.spawn(tick, p.decision);
    o == if actor.Some? then Settle(p, Materialized, actor, w.revision(tick + 1))
      else Reject(p, w.revision(tick + 1), WorldRefused)
  }

  /** The generation checks that come before an attempt is counted. */
  function GenerationFault(w: World, d: Decision, policy: Policy, attempts: nat, tick: nat): Option<Reason>
    requires d.target.Generated?
  {
    if attempts >= policy.maxGenerated then Some(GenerationLimit)
    else if policy.generationPolicy != Some(d.target.policy) then Some(PolicyUnavailable)
    else if !w.authorized(tick, d) then Some(NotAuthorized)
    else if w.limited(tick) then Some(MaterializationLimit)
    else None
  }

  /** What the turns of a batch are run under. */
  datatype Terms = Terms(budget: ResourceBudget, maxContextTokens: u64)

  /** A drafting turn at this moment came to this outcome. */
  ghost predicate Drafting(w: World, terms: Terms, tick: nat, outcome: Runner.TurnOutcome) {
    exists log :: Runner.TurnContract(w.turn(tick), log, w.request(tick), w.revision(tick), terms.budget,
      terms.maxContextTokens, outcome)
  }

  /** What the outcome of a drafting turn leads to: the model failed, it left no draft, or the draft is spawned. */
  ghost predicate Drafted(w: World, p: PendingDecision, tick: nat, outcome: Runner.TurnOutcome, o: Resolved) {
    match outcome.status
    case Failed(_) => o == Reject(p, w.revision(tick), ModelFailure)
    case Completed =>
      if !w.drafted(tick) then o == Reject(p, w.revision(tick), MissingDraft) else Spawned(w, p, tick, o)
    case _ => false
  }

  /** What an attempted generation comes to: no definitions, or what its drafting turn leads to. */
  ghost predicate Attempted(w: World, p: PendingDecision, terms: Terms, tick: nat, o: Resolved) {
    if !w.definable(tick) then o == Reject(p, w.revision(tick), WorldRefused)
    else exists outcome :: Drafting(w, terms, tick, outcome) && Drafted(w, p, tick + 1, outcome, o)
  }

  /** The verdict on a decision at a moment: staleness first, then earlier settlements, then its target. */
  ghost predicate Judged(
    w: World, p: PendingDecision, known: Option<ActorId>, policy: Policy, terms: Terms, attempts: nat, tick: nat,
    o: Resolved)
  {
    var now := w.revision(tick);
    if p.revision != now then o == Reject(p, now, StaleRevision)
    else if known.Some? then o == Settle(p, Existing, known, now)
    else
      match p.decision.target
      case Mentioned => o == Settle(p, WasMentioned, None, now)
      case ExistingTarget(actor) =>
        o == if w.valid(tick, actor, p.decision) then Settle(p, Existing, Some(actor), now)
          else Reject(p, now, ExistingTargetUnavailable)
      case Preset(_) => if w.limited(tick) then o == Reject(p, now, MaterializationLimit) else Spawned(w, p, tick, o)
      case Generated(_, _) =>
        var fault := GenerationFault(w, p.decision, policy, attempts, tick);
        if fault.Some? then o == Reject(p, now, fault.value) else Attempted(w, p, terms, tick, o)
  }

  /** A generation attempt is counted for a decision exactly when every check before it passes. */
  ghost predicate Attempts(
    w: World, p: PendingDecision, known: Option<ActorId>, policy: Policy, attempts: nat, tick: nat)
  {
    && p.revision == w.revision(tick) && known.None? && p.decision.target.Generated?
    && GenerationFault(w, p.decision, policy, attempts, tick).None?
  }

  /**
   * The moments at which a batch's decisions came up, and the attempts counted by then; one more of
   * each at the end.
   */
  datatype Course = Course(moments: seq<nat>, counts: seq<nat>)

  /** The verdict on one decision, at its own moment and count, and how both move on. */
  ghost predicate JudgedAt(
    w: World, settled: seq<Settlement>, pending: seq<PendingDecision>, policy: Policy, terms: Terms,
    outcomes: seq<Resolved>, c: Course, i: nat)
    requires i < |outcomes| <= |pending| && |c.moments| == |c.counts| == |outcomes| + 1
  {
    var p, known := pending[i], Known(settled, outcomes[..i], pending[i].decision);
    && Judged(w, p, known, policy, terms, c.counts[i], c.moments[i], outcomes[i])
    && c.moments[i] <= c.moments[i + 1]
    && c.counts[i + 1] == c.counts[i] + if Attempts(w, p, known, policy, c.counts[i], c.moments[i]) then 1 else 0
  }

  ghost predicate AllJudged(
    w: World, settled: seq<Settlement>, pending: seq<PendingDecision>, policy: Policy, terms: Terms,
    outcomes: seq<Resolved>, c: Course)
  {
    && |outcomes| <= |pending| && |c.moments| == |c.counts| == |outcomes| + 1
    && forall i :: 0 <= i < |outcomes| ==> JudgedAt(w, settled, pending, policy, terms, outcomes, c, i)
  }

  lemma TurnDrafted(w: World, terms: Terms, tick: nat, log: Runner.Turn, outcome: Runner.TurnOutcome)
    requires Runner.TurnContract(w.turn(tick), log, w.request(tick), w.revision(tick), terms.budget,
      terms.maxContextTokens, outcome)
    ensures Drafting(w, terms, tick, outcome)
  {
    hide Runner.TurnContract;
  }

  /** Nothing that comes before the target settles the decision. */
  ghost predicate Open(w: World, p: PendingDecision, known: Option<ActorId>, tick: nat) {
    p.revision == w.revision(tick) && known.None?
  }

  /**
   * What a verdict tells. A decision of another revision is stale, one settled
   * before keeps its actor; of the rest, a mention has no actor, an existing
   * target is itself if valid, and a character is materialised by a spawn.
   */
  lemma VerdictMeans(
    w: World, p: PendingDecision, known: Option<ActorId>, policy: Policy, terms: Terms, attempts: nat, tick: nat,
    o: Resolved)
    requires Judged(w, p, known, policy, terms, attempts, tick, o)
    ensures o.callId == p.callId && o.decision == p.decision && (o.status == Rejected <==> o.reason.Some?)
    ensures o.reason == Some(StaleRevision) <==> p.revision != w.revision(tick)
    ensures p.revision == w.revision(tick) && known.Some? ==> o.status == Existing && o.actor == known
    ensures o.status == WasMentioned <==> Open(w, p, known, tick) && p.decision.target.Mentioned?
    ensures o.status == WasMentioned || o.status == Rejected ==> o.actor.None?
    ensures Open(w, p, known, tick) && p.decision.target.ExistingTarget? ==>
      if w.valid(tick, p.decision.target.actor, p.decision)
      then o.status == Existing && o.actor == Some(p.decision.target.actor)
      else o.reason == Some(ExistingTargetUnavailable)
    ensures o.status == Materialized ==>
      && Open(w, p, known, tick) && (p.decision.target.Preset? || p.decision.target.Generated?) && !w.limited(tick)
      && exists at: nat :: tick <= at && o.actor == w.spawn(at, p.decision) && o.actor.Some?
           && o.revision == w.revision(at + 1)
    ensures o.status != Materialized && !p.decision.target.Generated? && o.reason != Some(WorldRefused) ==>
      o.revision == w.revision(tick)
  {
    hide Runner.TurnContract, Drafting;
    if o.status == Materialized && p.decision.target.Generated? {
      assert o.actor == w.spawn(tick + 1, p.decision);
    }
  }

  /**
   * Why a generation is refused: the limit of attempts, another policy, an
   * unauthorised request, the limit of characters, and once it is attempted no
   * definitions, a model that failed, no draft, or the world.
   */
  lemma GenerationMeans(
    w: World, p: PendingDecision, policy: Policy, terms: Terms, attempts: nat, tick: nat, o: Resolved)
    requires Judged(w, p, None, policy, terms, attempts, tick, o)
    requires p.revision == w.revision(tick) && p.decision.target.Generated?
    ensures var spent, known := attempts >= policy.maxGenerated,
        policy.generationPolicy == Some(p.decision.target.policy);
      var allowed := w.authorized(tick, p.decision);
      && (o.reason == Some(GenerationLimit) <==> spent)
      && (o.reason == Some(PolicyUnavailable) <==> !spent && !known)
      && (o.reason == Some(NotAuthorized) <==> !spent && known && !allowed)
      && (o.reason == Some(MaterializationLimit) <==> !spent && known && allowed && w.limited(tick))
      && (Attempts(w, p, None, policy, attempts, tick) <==> !spent && known && allowed && !w.limited(tick))
      && (o.status == Materialized ==> w.definable(tick) && w.drafted(tick + 1))
      && (o.reason == Some(MissingDraft) ==> w.definable(tick) && !w.drafted(tick + 1))
    ensures Attempts(w, p, None, policy, attempts, tick) && w.definable(tick) ==>
      exists outcome :: Drafting(w, terms, tick, outcome)
        && (outcome.status.Failed? <==> o.reason == Some(ModelFailure))
        && (outcome.status.Completed? <==> o.reason != Some(ModelFailure))
  {
    hide Runner.TurnContract, Drafting;
    if Attempts(w, p, None, policy, attempts, tick) && w.definable(tick) {
      var outcome :| Drafting(w, terms, tick, outcome) && Drafted(w, p, tick + 1, outcome, o);
    }
  }

  /** Spawn the character and report it. */
  method Materialize(
    w: World, p: PendingDecision, ghost start: nat, tick0: nat) returns (r: Result<Resolved, RuntimeError>, tick: nat)
    requires Advancing(w) && start <= tick0 && p.revision == w.revision(start)
    ensures tick0 <= tick
    ensures r.Ok? ==> Step(w, p, r.value, start, tick)
    ensures r.Ok? ==> Spawned(w, p, tick0, r.value)
    ensures r.Err? ==> r.error == ServiceFailed && w.spawn(tick0, p.decision).Some? && w.fails(tick)
  {
    tick := tick0 + 1;
    var actor := w.spawn(tick0, p.decision);
    if actor.None? {
      return Ok(Reject(p, w.revision(tick), WorldRefused)), tick;
    }
    assert w.revision(start) <= w.revision(tick0) < w.revision(tick);
    if w.fails(tick) {
      return Err(ServiceFailed), tick;
    }
    return Ok(Settle(p, Materialized, actor, w.revision(tick))), tick;
  }

  /** Any rejection of a fresh decision is a proper step. */
  lemma RejectionIsStep(w: World, p: PendingDecision, start: nat, tick: nat)
    requires start <= tick && p.revision == w.revision(start)
    ensures forall reason, after: nat, t: nat :: tick <= after ==>
      Step(w, p, Reject(p, w.revision(t), reason), start, after)
  {}

  /** The generation arm: limits first, then one started turn, then the draft. */
  method Generate(
    w: World, p: PendingDecision, policy: Policy, ghost start: nat, tick0: nat, attempts0: nat,
    state: OrchestrationState, b: OrchestrationBudget, turn: ResourceBudget, maxContextTokens: u64)
    returns (r: Result<Resolved, RuntimeError>, tick: nat, attempts: nat)
    requires Advancing(w) && start <= tick0 && p.revision == w.revision(start) && p.decision.target.Generated?
    requires state.Sound(b, turn) && !state.refused && attempts0 <= policy.maxGenerated
    modifies state`startedTurns, state`usage, state`spent, state`refused
    ensures state.Sound(b, turn) && (r.Ok? ==> !state.refused)
    ensures tick0 <= tick && attempts0 <= attempts <= policy.maxGenerated
    ensures r.Ok? ==> Step(w, p, r.value, start, tick)
    ensures r.Ok? ==>
      var fault := GenerationFault(w, p.decision, policy, attempts0, tick0);
      if fault.Some? then r.value == Reject(p, w.revision(tick0), fault.value)
        else Attempted(w, p, Terms(turn, maxContextTokens), tick0, r.value)
    ensures r.Ok? ==>
      attempts == attempts0 + if GenerationFault(w, p.decision, policy, attempts0, tick0).None? then 1 else 0
    ensures r.Err? ==> Interrupts(r.error) && (r.error.Budget? ==> state.Caused(b, r.error.reason))
    ensures state.spent.turns - old(state.spent.turns) <= attempts - attempts0
  {
    hide Spawned, Step, Advancing, Runner.TurnContract, Drafting;
    RejectionIsStep(w, p, start, tick0);
    tick, attempts := tick0, attempts0;
    if attempts >= policy.maxGenerated {
      return Ok(Reject(p, w.revision(tick), GenerationLimit)), tick, attempts;
    }
    if policy.generationPolicy != Some(p.decision.target.policy) {
      return Ok(Reject(p, w.revision(tick), PolicyUnavailable)), tick, attempts;
    }
    if w.fails(tick) {
      return Err(ServiceFailed), tick, attempts;
    }
    if !w.authorized(tick, p.decision) {
      return Ok(Reject(p, w.revision(tick), NotAuthorized)), tick, attempts;
    }
    if w.limited(tick) {
      return Ok(Reject(p, w.revision(tick), MaterializationLimit)), tick, attempts;
    }
    attempts := attempts + 1;
    var stop := state.StartTurn(b, w.elapsedMs(tick), turn);
    if stop.Some? {
      return Err(Budget(stop.value)), tick, attempts;
    }
    if !w.definable(tick) {
      return Ok(Reject(p, w.revision(tick), WorldRefused)), tick, attempts;
    }
    var outcome;
    ghost var log;
    outcome, stop, log := state.RunAgentTurn(w.turn(tick), w.request(tick), w.revision(tick), b, turn, maxContextTokens,
      w.elapsedMs(tick + 1));
    TurnDrafted(w, Terms(turn, maxContextTokens), tick, log, outcome);
    tick := tick + 1;
    if stop.Some? {
      return Err(Budget(stop.value)), tick, attempts;
    }
    match outcome.status
    case Cancelled => return Err(RuntimeError.Cancelled), tick, attempts;
    case BudgetExhausted(reason) => return Err(Budget(reason)), tick, attempts;
    case Failed(_) => return Ok(Reject(p, w.revision(tick), ModelFailure)), tick, attempts;
    case Completed =>
      if !w.drafted(tick) {
        return Ok(Reject(p, w.revision(tick), MissingDraft)), tick, attempts;
      }
      r, tick := Materialize(w, p, start, tick);
  }

  /** One decision of the batch. */
  method ResolveOne(
    w: World, p: PendingDecision, settled: seq<Settlement>, outcomes: seq<Resolved>, policy: Policy, tick0: nat,
    attempts0: nat, state: OrchestrationState, b: OrchestrationBudget, turn: ResourceBudget, maxContextTokens: u64)
    returns (r: Result<Resolved, RuntimeError>, tick: nat, attempts: nat)
    requires Advancing(w)
    requires state.Sound(b, turn) && !state.refused && attempts0 <= policy.maxGenerated
    modifies state`startedTurns, state`usage, state`spent, state`refused
    ensures state.Sound(b, turn) && (r.Ok? ==> !state.refused)
    ensures tick0 <= tick && attempts0 <= attempts <= policy.maxGenerated
    ensures r.Ok? ==> Step(w, p, r.value, tick0, tick)
    ensures r.Ok? && r.value.status == Materialized ==> !WasSettled(settled, p.decision)
    ensures var known := Known(settled, outcomes, p.decision);
      r.Ok? ==>
        && Judged(w, p, known, policy, Terms(turn, maxContextTokens), attempts0, tick0, r.value)
        && attempts == attempts0 + if Attempts(w, p, known, policy, attempts0, tick0) then 1 else 0
    ensures r.Err? && r.error.Budget? ==> state.Caused(b, r.error.reason)
    ensures r.Err? ==>
      Interrupts(r.error) && (w.cancelled(tick0) || p.decision.target.Preset? || p.decision.target.Generated?)
    ensures state.spent.turns - old(state.spent.turns) <= attempts - attempts0
  {
    tick, attempts := tick0, attempts0;
    if w.cancelled(tick) {
      return Err(RuntimeError.Cancelled), tick, attempts;
    }
    if p.revision != w.revision(tick) {
      return Ok(Reject(p, w.revision(tick), StaleRevision)), tick, attempts;
    }
    var known := FindSettled(settled, outcomes, p.decision);
    if known.Some? {
      return Ok(Settle(p, Existing, known, w.revision(tick))), tick, attempts;
    }
    match p.decision.target
    case Mentioned =>
      r := Ok(Settle(p, WasMentioned, None, w.revision(tick)));
    case ExistingTarget(actor) =>
      var found := w.valid(tick, actor, p.decision);
      r := Ok(if found then Settle(p, Existing, Some(actor), w.revision(tick))
        else Reject(p, w.revision(tick), ExistingTargetUnavailable));
    case Preset(_) =>
      if w.fails(tick) {
        return Err(ServiceFailed), tick, attempts;
      }
      if w.limited(tick) {
        r := Ok(Reject(p, w.revision(tick), MaterializationLimit));
      } else {
        r, tick := Materialize(w, p, tick0, tick);
      }
    case Generated(_, _) =>
      r, tick, attempts := Generate(w, p, policy, tick0, tick, attempts, state, b, turn, maxContextTokens);
  }

  /** A decision after a materialisation is stale, because the commit moved the revision on. */
  lemma OutcomeKeepsSerialised(
    w: World, pending: seq<PendingDecision>, outcomes: seq<Resolved>, o: Resolved, start: nat, tick: nat, after: nat)
    requires Advancing(w) && start <= tick && |outcomes| < |pending|
    requires forall i :: 0 <= i < |pending| ==> pending[i].revision <= w.revision(start)
    requires InOrder(pending, outcomes) && Serialised(outcomes)
    requires (exists i :: 0 <= i < |outcomes| && outcomes[i].status == Materialized) ==>
      w.revision(start) < w.revision(tick)
    requires Step(w, pending[|outcomes|], o, tick, after)
    ensures InOrder(pending, outcomes + [o]) && Serialised(outcomes + [o])
    ensures (exists i :: 0 <= i < |outcomes + [o]| && (outcomes + [o])[i].status == Materialized) ==>
      w.revision(start) < w.revision(after)
  {
    assert w.revision(start) <= w.revision(tick) <= w.revision(after);
    if i :| 0 <= i < |outcomes + [o]| && (outcomes + [o])[i].status == Materialized {
      assert i < |outcomes| ==> outcomes[i].status == Materialized;
    }
  }

  /**
   * `resolve_npc_decisions`. A finished batch has one outcome per decision in
   * order, at most one of them a materialisation, everything after which is
   * rejected as stale; generation attempts stay within the policy's limit.
   */
  method ResolveDecisions(
    w: World, pending: seq<PendingDecision>, settled: seq<Settlement>, policy: Policy, tick0: nat, attempts0: nat,
    state: OrchestrationState, b: OrchestrationBudget, turn: ResourceBudget, maxContextTokens: u64)
    returns (r: Result<seq<Resolved>, RuntimeError>, tick: nat, attempts: nat, ghost c: Course)
    requires Advancing(w) && forall i :: 0 <= i < |pending| ==> pending[i].revision <= w.revision(tick0)
    requires state.Sound(b, turn) && !state.refused && attempts0 <= policy.maxGenerated
    modifies state`startedTurns, state`usage, state`spent, state`refused
    ensures state.Sound(b, turn) && (r.Ok? ==> !state.refused)
    ensures tick0 <= tick && attempts0 <= attempts <= policy.maxGenerated
    ensures r.Ok? ==>
      |r.value| == |pending| && InOrder(pending, r.value) && Serialised(r.value) && NotRepeated(settled, r.value)
    ensures r.Ok? ==> AllJudged(w, settled, pending, policy, Terms(turn, maxContextTokens), r.value, c)
    ensures r.Ok? ==>
      c.moments[0] == tick0 && c.counts[0] == attempts0 && c.moments[|pending|] == tick
      && c.counts[|pending|] == attempts
    ensures r.Err? ==> Interrupts(r.error) && (r.error.Budget? ==> state.Caused(b, r.error.reason))
    ensures state.spent.turns - old(state.spent.turns) <= attempts - attempts0
  {
    tick, attempts, c := tick0, attempts0, Course([tick0], [attempts0]);
    var outcomes: seq<Resolved> := [];
    for i := 0 to |pending|
      invariant state.Sound(b, turn) && !state.refused
      invariant tick0 <= tick && attempts0 <= attempts <= policy.maxGenerated
      invariant |outcomes| == i && InOrder(pending, outcomes) && Serialised(outcomes) && NotRepeated(settled, outcomes)
      invariant AllJudged(w, settled, pending, policy, Terms(turn, maxContextTokens), outcomes, c)
      invariant c.moments[0] == tick0 && c.counts[0] == attempts0 && c.moments[i] == tick && c.counts[i] == attempts
      invariant (exists j :: 0 <= j < |outcomes| && outcomes[j].status == Materialized) ==>
        w.revision(tick0) < w.revision(tick)
      invariant state.spent.turns - old(state.spent.turns) <= attempts - attempts0
    {
      hide Serialised, WasSettled, Step, Advancing, Judged, Attempts, Known;
      ghost var before := tick;
      var one;
      one, tick, attempts := ResolveOne(w, pending[i], settled, outcomes, policy, tick, attempts, state, b, turn,
        maxContextTokens);
      if one.Err? {
        return Err(one.error), tick, attempts, c;
      }
      OutcomeKeepsSerialised(w, pending, outcomes, one.value, tick0, before, tick);
      StepNames(w, pending[i], one.value, before, tick);
      JudgedMore(w, settled, pending, policy, Terms(turn, maxContextTokens), outcomes, c, one.value, tick, attempts);
      c := Course(c.moments + [tick], c.counts + [attempts]);
      outcomes := outcomes + [one.value];
    }
    return Ok(outcomes), tick, attempts, c;
  }

  lemma JudgedMore(
    w: World, settled: seq<Settlement>, pending: seq<PendingDecision>, policy: Policy, terms: Terms,
    outcomes: seq<Resolved>, c: Course, o: Resolved, tick: nat, attempts: nat)
    requires |outcomes| < |pending| && AllJudged(w, settled, pending, policy, terms, outcomes, c)
    requires var p, known := pending[|outcomes|], Known(settled, outcomes, pending[|outcomes|].decision);
      && Judged(w, p, known, policy, terms, c.counts[|outcomes|], c.moments[|outcomes|], o)
        && c.moments[|outcomes|] <= tick
      && attempts == c.counts[|outcomes|] + if Attempts(w, p, known, policy, c.counts[|outcomes|],
        c.moments[|outcomes|]) then 1 else 0
    ensures AllJudged(w, settled, pending, policy, terms, outcomes + [o],
      Course(c.moments + [tick], c.counts + [attempts]))
  {
    hide Judged, Attempts, Known;
    var longer, c' := outcomes + [o], Course(c.moments + [tick], c.counts + [attempts]);
    forall i | 0 <= i < |longer|
      ensures JudgedAt(w, settled, pending, policy, terms, longer, c', i)
    {
      assert longer[..i] == outcomes[..i];
      assert outcomes[..|outcomes|] == outcomes;
      assert i < |outcomes| ==> JudgedAt(w, settled, pending, policy, terms, outcomes, c, i);
    }
  }

  lemma StepNames(w: World, p: PendingDecision, o: Resolved, tick: nat, after: nat)
    requires Step(w, p, o, tick, after)
    ensures o.decision == p.decision && (o.status == Materialized ==> o.actor.Some?)
  {}

  /** At most one decision of a finished batch is materialised. */
  lemma AtMostOneMaterialized(outcomes: seq<Resolved>)
    requires Serialised(outcomes)
    ensures forall i, j :: 0 <= i < |outcomes| && 0 <= j < |outcomes| ==>
      outcomes[i].status == outcomes[j].status == Materialized ==> i == j
  {
    forall i, j | 0 <= i < |outcomes| && 0 <= j < |outcomes| && outcomes[i].status == outcomes[j].status == Materialized
      ensures i == j
    {
      assert !(i < j) && !(j < i);
    }
  }
}
