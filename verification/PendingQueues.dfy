/** What a narrator's tools leave behind for the runtime to carry out after the turn. */
module PendingQueues {
  import opened Outcomes

  type Revision = nat

  datatype TopologyRequest = TopologyRequest(callId: nat, revision: Revision, kind: nat)
  datatype DecisionRequest = DecisionRequest(callId: nat, revision: Revision, decision: nat)
  datatype TurnRequest = TurnRequest(requestId: nat, revision: Revision, actor: nat)

  datatype QueueError = CapabilityDenied | Unavailable | TopologyConflict | InvalidInput

  /** The calling tool's context, seen against the world's current revision. */
  datatype Caller = Caller(authorised: bool, revision: Revision, current: Revision)

  class PendingWork {
    var decisions: seq<DecisionRequest>
    var turns: seq<TurnRequest>
    var topology: Option<TopologyRequest>

    constructor ()
      ensures decisions == [] && turns == [] && topology == None && Valid(0)
    {
      decisions, turns, topology := [], [], None;
    }

    /** A topology change is never queued together with anything else, and nothing is newer than the world. */
    ghost predicate Valid(current: Revision)
      reads this
    {
      && (topology.Some? ==> decisions == [] && turns == [])
      && (forall i :: 0 <= i < |decisions| ==> decisions[i].revision <= current)
      && (forall i :: 0 <= i < |turns| ==> turns[i].revision <= current)
      && (topology.Some? ==> topology.value.revision <= current)
    }

    /** `queue_topology`: one change per turn; asking again for the same change is accepted. */
    method QueueTopology(caller: Caller, callId: nat, kind: nat) returns (r: Result<bool, QueueError>)
      requires Valid(caller.current)
      modifies this`topology
      ensures Valid(caller.current)
      ensures r.Ok? <==>
        && caller.authorised && caller.revision == caller.current && decisions == [] && turns == []
        && (old(topology).None? || old(topology).value.kind == kind)
      ensures r.Ok? ==> r.value == old(topology).Some?
      ensures r == Err(CapabilityDenied) <==> !caller.authorised
      ensures r == Err(Unavailable) <==> caller.authorised && caller.revision != caller.current
      ensures r.Err? ==> r.error != InvalidInput
      ensures topology ==
        if r.Ok? && !r.value then Some(TopologyRequest(callId, caller.revision, kind)) else old(topology)
    {
      if !caller.authorised {
        return Err(CapabilityDenied);
      }
      if caller.revision != caller.current {
        return Err(Unavailable);
      }
      if decisions != [] || turns != [] {
        return Err(TopologyConflict);
      }
      if topology.Some? {
        return if topology.value.kind == kind then Ok(true) else Err(TopologyConflict);
      }
      topology := Some(TopologyRequest(callId, caller.revision, kind));
      return Ok(false);
    }

    /** `create_npc`: queue a decision bound to the caller's revision. */
    method QueueDecision(caller: Caller, callId: nat, decision: Option<nat>) returns (r: Result<(), QueueError>)
      requires Valid(caller.current)
      modifies this`decisions
      ensures Valid(caller.current)
      ensures r.Ok? <==> caller.authorised && caller.revision == caller.current && topology.None? && decision.Some?
      ensures r == Err(CapabilityDenied) <==> !caller.authorised
      ensures r == Err(Unavailable) <==> caller.authorised && caller.revision != caller.current
      ensures r == Err(TopologyConflict) <==>
        caller.authorised && caller.revision == caller.current && topology.Some?
      ensures decisions == old(decisions) + if r.Ok? then [DecisionRequest(callId, caller.revision, decision.value)]
        else []
    {
      if !caller.authorised {
        return Err(CapabilityDenied);
      }
      if caller.revision != caller.current {
        return Err(Unavailable);
      }
      if topology.Some? {
        return Err(TopologyConflict);
      }
      if decision.None? {
        return Err(InvalidInput);
      }
      decisions := decisions + [DecisionRequest(callId, caller.revision, decision.value)];
      return Ok(());
    }

    /** `request_npc_turn`: queue a turn bound to the caller's revision. */
    method QueueTurn(caller: Caller, requestId: nat, actor: Option<nat>) returns (r: Result<(), QueueError>)
      requires Valid(caller.current)
      modifies this`turns
      ensures Valid(caller.current)
      ensures r.Ok? <==> caller.authorised && caller.revision == caller.current && topology.None? && actor.Some?
      ensures r == Err(CapabilityDenied) <==> !caller.authorised
      ensures r == Err(Unavailable) <==> caller.authorised && caller.revision != caller.current
      ensures r == Err(TopologyConflict) <==>
        caller.authorised && caller.revision == caller.current && topology.Some?
      ensures turns == old(turns) + if r.Ok? then [TurnRequest(requestId, caller.revision, actor.value)] else []
    {
      if !caller.authorised {
        return Err(CapabilityDenied);
      }
      if caller.revision != caller.current {
        return Err(Unavailable);
      }
      if topology.Some? {
        return Err(TopologyConflict);
      }
      if actor.None? {
        return Err(InvalidInput);
      }
      turns := turns + [TurnRequest(requestId, caller.revision, actor.value)];
      return Ok(());
    }

    /** Taking everything after a turn leaves nothing behind. */
    method TakeAll(
      ghost current: Revision) returns (taken: (seq<DecisionRequest>, seq<TurnRequest>, Option<TopologyRequest>))
      requires Valid(current)
      modifies this
      ensures taken == (old(decisions), old(turns), old(topology))
      ensures taken.2.Some? ==> taken.0 == [] && taken.1 == []
      ensures decisions == [] && turns == [] && topology == None && Valid(current)
    {
      taken := (decisions, turns, topology);
      decisions, turns, topology := [], [], None;
    }
  }
}
