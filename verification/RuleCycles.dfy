/** Rejecting rules that could trigger one another forever. */
module RuleCycles {
  import opened Outcomes
  import opened Ordering
  import opened Graphs

  datatype Effect =
    | ResourceDelta
    | ApplyCondition
    | GrantItem
    | GrantSkill
    | SetParameter
    | EmitEvent(eventType: string)

  /** A rule listens to at most one world event type; other triggers listen to none. */
  datatype Definition =
    | Rule(listensTo: Option<string>, effects: seq<Effect>)
    | OtherDefinition

  type Definitions = map<nat, Definition>

  /** `effect_event_type`: the type of the event an effect raises. */
  function EffectEventType(effect: Effect): string {
    match effect
    case ResourceDelta => "resource_changed"
    case ApplyCondition => "condition_applied"
    case GrantItem => "item_granted"
    case GrantSkill => "skill_granted"
    case SetParameter => "parameter_changed"
    case EmitEvent(eventType) => eventType
  }

  ghost predicate Raises(d: Definition, eventType: string) {
    d.Rule? && exists k :: 0 <= k < |d.effects| && EffectEventType(d.effects[k]) == eventType
  }

  ghost predicate Listens(d: Definition, eventType: string) {
    d.Rule? && d.listensTo == Some(eventType)
  }

  /** The rules a definition's effects trigger. */
  ghost function Triggered(definitions: Definitions, d: Definition): set<nat> {
    set t | t in definitions && definitions[t].Rule? && definitions[t].listensTo.Some?
      && Raises(d, definitions[t].listensTo.value)
  }

  /** Each rule points at the rules listening to an event one of its effects raises. */
  ghost function TriggerGraph(definitions: Definitions): Graph {
    map id | id in definitions && definitions[id].Rule? :: Triggered(definitions, definitions[id])
  }

  function Targets(edges: map<nat, set<nat>>, id: nat): set<nat> {
    if id in edges then edges[id] else {}
  }

  /** The event type by which a rule is told of an effect. */
  ghost predicate TellsOf(eventType: string, effect: Effect) {
    || (effect == ResourceDelta && eventType == "resource_changed")
    || (effect == ApplyCondition && eventType == "condition_applied")
    || (effect == GrantItem && eventType == "item_granted")
    || (effect == GrantSkill && eventType == "skill_granted")
    || (effect == SetParameter && eventType == "parameter_changed")
    || effect == EmitEvent(eventType)
  }

  /** An edge leads from a rule to another exactly when that one listens to what one of its effects is told by. */
  lemma TriggersExactly(definitions: Definitions, a: nat, b: nat)
    ensures a in TriggerGraph(definitions) <==> a in definitions && definitions[a].Rule?
    ensures a in TriggerGraph(definitions) ==>
      (b in TriggerGraph(definitions)[a] <==>
        && b in definitions && definitions[b].Rule? && definitions[b].listensTo.Some?
        && exists k :: 0 <= k < |definitions[a].effects|
             && TellsOf(definitions[b].listensTo.value, definitions[a].effects[k]))
  {
    if a in TriggerGraph(definitions) {
      var effects := definitions[a].effects;
      forall k, e | 0 <= k < |effects|
        ensures EffectEventType(effects[k]) == e <==> TellsOf(e, effects[k])
      {}
      forall e
        ensures Raises(definitions[a], e) <==> exists k :: 0 <= k < |effects| && TellsOf(e, effects[k])
      {
        if k :| 0 <= k < |effects| && TellsOf(e, effects[k]) {
          assert EffectEventType(effects[k]) == e;
        }
      }
    }
  }

  /** Without a cycle no rule has an effect that it listens to itself. */
  lemma NoRuleFeedsItself(definitions: Definitions, id: nat, k: nat)
    requires !Cyclic(TriggerGraph(definitions))
    requires id in definitions && definitions[id].Rule? && k < |definitions[id].effects|
    ensures definitions[id].listensTo.Some? ==> !TellsOf(definitions[id].listensTo.value, definitions[id].effects[k])
  {
    var g := TriggerGraph(definitions);
    if definitions[id].listensTo.Some? && TellsOf(definitions[id].listensTo.value, definitions[id].effects[k]) {
      TriggersExactly(definitions, id, id);
      assert IsCycle(g, [id, id]);
    }
  }

  // ------------------------------------------------------ building the graph

  /** The rules listening to each event type. */
  method BuildListeners(definitions: Definitions) returns (listeners: map<string, set<nat>>)
    ensures forall e, t :: (e in listeners && t in listeners[e]) <==> (t in definitions && Listens(definitions[t], e))
  {
    var rest := definitions.Keys;
    listeners := map[];
    while rest != {}
      invariant rest <= definitions.Keys
      invariant forall e, t :: (e in listeners && t in listeners[e]) <==>
        (t in definitions && t !in rest && Listens(definitions[t], e))
      decreases rest
    {
      var id := Least(rest);
      var d := definitions[id];
      if d.Rule? && d.listensTo.Some? {
        var e := d.listensTo.value;
        listeners := listeners[e := (if e in listeners then listeners[e] else {}) + {id}];
      }
      rest := rest - {id};
    }
  }

  /** The targets of one rule's effects. */
  method EffectTargets(
    definitions: Definitions, listeners: map<string, set<nat>>, d: Definition) returns (targets: set<nat>)
    requires d.Rule?
    requires forall e, t :: (e in listeners && t in listeners[e]) <==> (t in definitions && Listens(definitions[t], e))
    ensures targets == Triggered(definitions, d)
  {
    targets := {};
    for k := 0 to |d.effects|
      invariant targets == Triggered(definitions, Rule(None, d.effects[..k]))
    {
      var e := EffectEventType(d.effects[k]);
      RaisesMore(d.effects, k);
      if e in listeners {
        targets := targets + listeners[e];
      }
    }
    assert d.effects[..|d.effects|] == d.effects;
    assert forall e :: Raises(Rule(None, d.effects), e) <==> Raises(d, e);
  }

  lemma RaisesMore(effects: seq<Effect>, k: nat)
    requires k < |effects|
    ensures forall e :: Raises(Rule(None, effects[..k + 1]), e) <==>
      Raises(Rule(None, effects[..k]), e) || e == EffectEventType(effects[k])
  {
    forall e
      ensures Raises(Rule(None, effects[..k + 1]), e) <==>
        Raises(Rule(None, effects[..k]), e) || e == EffectEventType(effects[k])
    {
      if Raises(Rule(None, effects[..k]), e) {
        var j :| 0 <= j < k && EffectEventType(effects[..k][j]) == e;
        assert effects[..k + 1][j] == effects[..k][j];
      }
      assert effects[..k + 1][k] == effects[k];
    }
  }

  /** The edges of the trigger graph; rules without targets may have no entry. */
  method BuildEdges(definitions: Definitions) returns (edges: map<nat, set<nat>>)
    ensures edges.Keys <= TriggerGraph(definitions).Keys
    ensures forall id :: id in TriggerGraph(definitions) ==> Targets(edges, id) == TriggerGraph(definitions)[id]
  {
    hide Triggered, Listens;
    var listeners := BuildListeners(definitions);
    edges := map[];
    var rest := definitions.Keys;
    while rest != {}
      invariant rest <= definitions.Keys
      invariant edges.Keys <= TriggerGraph(definitions).Keys - rest
      invariant forall id :: id in TriggerGraph(definitions) && id !in rest ==>
        Targets(edges, id) == TriggerGraph(definitions)[id]
      decreases rest
    {
      var id := Least(rest);
      var d := definitions[id];
      if d.Rule? {
        var targets := EffectTargets(definitions, listeners, d);
        if targets != {} {
          edges := edges[id := targets];
        }
      }
      rest := rest - {id};
    }
  }

  // --------------------------------------------------------- the search

  /** A walk from the root that comes back to one of its nodes. */
  ghost predicate Lasso(g: Graph, root: nat) {
    exists p :: IsLasso(g, p) && p[0] == root
  }

  ghost predicate IsLasso(g: Graph, p: seq<nat>) {
    |p| >= 2 && IsWalk(g, p) && p[|p| - 1] in p[..|p| - 1]
  }

  lemma LassoIsCyclic(g: Graph, root: nat)
    requires Lasso(g, root)
    ensures Cyclic(g)
  {
    var p :| IsLasso(g, p) && p[0] == root;
    var i :| 0 <= i < |p| - 1 && p[i] == p[|p| - 1];
    assert IsCycle(g, p[i..]);
  }

  ghost predicate EdgesOf(edges: map<nat, set<nat>>, g: Graph) {
    edges.Keys <= g.Keys && Closed(g) && forall id :: id in g ==> Targets(edges, id) == g[id]
  }

  /** Finished nodes point at nodes finished before them. */
  ghost predicate FinishedRanks(g: Graph, visited: set<nat>, rank: map<nat, nat>) {
    && rank.Keys == visited && visited <= g.Keys
    && (forall v :: v in visited ==> rank[v] < |visited|)
    && (forall v, t :: v in visited && t in g[v] ==> t in visited && rank[t] < rank[v])
  }

  lemma TargetsInGraph(edges: map<nat, set<nat>>, g: Graph, id: nat)
    requires EdgesOf(edges, g) && id in g
    ensures Targets(edges, id) == g[id] <= g.Keys
  {}

  lemma SearchFacts(g: Graph, visiting: set<nat>, visited: set<nat>, rank: map<nat, nat>, path: seq<nat>)
    requires Searching(g, visiting, visited, rank, path)
    ensures (forall n :: n in visiting <==> n in path) && visiting <= g.Keys
    ensures path != [] ==> IsWalk(g, path)
  {}

  /** Where the search stands: `path` is the walk of nodes being visited. */
  ghost predicate Searching(g: Graph, visiting: set<nat>, visited: set<nat>, rank: map<nat, nat>, path: seq<nat>) {
    && FinishedRanks(g, visited, rank)
    && visiting !! visited && visiting <= g.Keys
    && (forall n :: n in visiting <==> n in path)
    && (path != [] ==> IsWalk(g, path))
  }

  lemma EnterNode(g: Graph, visiting: set<nat>, visited: set<nat>, rank: map<nat, nat>, path: seq<nat>, id: nat)
    requires Searching(g, visiting, visited, rank, path) && id in g && id !in visiting && id !in visited
    requires path != [] ==> path[|path| - 1] in g && id in g[path[|path| - 1]]
    ensures Searching(g, visiting + {id}, visited, rank, path + [id])
  {
    hide FinishedRanks;
    WalkExtends(g, path, id);
  }

  lemma LeaveNode(g: Graph, visiting: set<nat>, visited: set<nat>, rank: map<nat, nat>, path: seq<nat>, id: nat)
    requires Searching(g, visiting, visited, rank, path + [id]) && id in g && g[id] <= visited
    requires id !in path && (path != [] ==> IsWalk(g, path))
    ensures Searching(g, visiting - {id}, visited + {id}, rank[id := |visited|], path)
  {
    hide IsWalk;
    FinishNode(g, visited, rank, id);
  }

  lemma FinishNode(g: Graph, visited: set<nat>, rank: map<nat, nat>, id: nat)
    requires FinishedRanks(g, visited, rank) && id in g && id !in visited && g[id] <= visited
    ensures FinishedRanks(g, visited + {id}, rank[id := |visited|])
  {}

  lemma WalkExtends(g: Graph, path: seq<nat>, id: nat)
    requires path != [] ==> IsWalk(g, path) && id in g[path[|path| - 1]]
    requires id in g
    ensures IsWalk(g, path + [id])
  {}

  lemma WalkReturns(g: Graph, path: seq<nat>, id: nat)
    requires id in path && IsWalk(g, path) && id in g && id in g[path[|path| - 1]]
    ensures Lasso(g, (path + [id])[0])
  {
    var p := path + [id];
    assert p[..|p| - 1] == path;
    assert IsLasso(g, p);
  }

  class CycleSearch {
    const edges: map<nat, set<nat>>
    var visiting: set<nat>
    var visited: set<nat>
    ghost const graph: Graph
    ghost var rank: map<nat, nat>

    constructor (edges: map<nat, set<nat>>, ghost graph: Graph)
      requires EdgesOf(edges, graph)
      ensures this.edges == edges && this.graph == graph
      ensures visiting == {} && visited == {} && Valid([])
    {
      this.edges, this.graph := edges, graph;
      visiting, visited, rank := {}, {}, map[];
    }

    /** `path` is the walk of nodes being visited. */
    ghost predicate Valid(path: seq<nat>)
      reads this
    {
      EdgesOf(edges, graph) && Searching(graph, visiting, visited, rank, path)
    }

    ghost predicate Extends(path: seq<nat>, id: nat)
      reads this
    {
      id in graph && (path != [] ==> path[|path| - 1] in graph && id in graph[path[|path| - 1]])
    }

    /** `rule_cycle_from`: depth-first search, true on meeting a node being visited. */
    method From(id: nat, ghost path: seq<nat>) returns (cyclic: bool)
      requires Valid(path) && Extends(path, id)
      modifies this`visiting, this`visited, this`rank
      ensures cyclic ==> Lasso(graph, (path + [id])[0])
      ensures !cyclic ==> Valid(path) && visiting == old(visiting) && old(visited) + {id} <= visited
      decreases graph.Keys - visiting, 0
    {
      hide Searching, EdgesOf, IsWalk, Lasso;
      SearchFacts(graph, visiting, visited, rank, path);
      if id in visited {
        return false;
      }
      if id in visiting {
        WalkReturns(graph, path, id);
        return true;
      }
      ghost var walk := path + [id];
      EnterNode(graph, visiting, visited, rank, path, id);
      visiting := visiting + {id};
      cyclic := AnyTarget(id, walk);
      if cyclic {
        assert (walk + [id])[0] == walk[0];
        return true;
      }
      LeaveNode(graph, visiting, visited, rank, path, id);
      visiting := visiting - {id};
      rank := rank[id := |visited|];
      visited := visited + {id};
      return false;
    }

    /** Search from every target of the node on top of the walk. */
    method AnyTarget(id: nat, ghost walk: seq<nat>) returns (cyclic: bool)
      requires Valid(walk) && walk != [] && walk[|walk| - 1] == id && id in graph
      modifies this`visiting, this`visited, this`rank
      ensures cyclic ==> Lasso(graph, walk[0])
      ensures !cyclic ==> Valid(walk) && visiting == old(visiting) && old(visited) <= visited && graph[id] <= visited
      decreases graph.Keys - visiting, 1
    {
      hide Searching, Lasso;
      TargetsInGraph(edges, graph, id);
      var rest := Targets(edges, id);
      while rest != {}
        invariant Valid(walk) && visiting == old(visiting) && old(visited) <= visited
        invariant rest <= graph[id] && graph[id] - rest <= visited
        decreases rest
      {
        var target := Least(rest);
        cyclic := From(target, walk);
        if cyclic {
          assert (walk + [target])[0] == walk[0];
          return;
        }
        rest := rest - {target};
      }
      return false;
    }
  }

  lemma TriggerGraphClosed(definitions: Definitions, edges: map<nat, set<nat>>)
    requires edges.Keys <= TriggerGraph(definitions).Keys
    requires forall id :: id in TriggerGraph(definitions) ==> Targets(edges, id) == TriggerGraph(definitions)[id]
    ensures EdgesOf(edges, TriggerGraph(definitions))
  {}

  /** The finish order, extended to rules without edges. */
  ghost function RankOf(g: Graph, rank: map<nat, nat>): map<nat, nat> {
    map n | n in g :: if n in rank then rank[n] else 0
  }

  lemma FinishedIsRanked(edges: map<nat, set<nat>>, g: Graph, visited: set<nat>, rank: map<nat, nat>)
    requires EdgesOf(edges, g) && FinishedRanks(g, visited, rank) && edges.Keys <= visited
    ensures Ranked(g, RankOf(g, rank))
  {
    forall a, b | a in g && b in g[a] && b in g
      ensures RankOf(g, rank)[b] < RankOf(g, rank)[a]
    {
      assert a in edges;
    }
  }

  /**
   * `validate_rule_cycles`. It accepts exactly when no chain of rules triggers
   * itself again, and then every rule outranks the rules it triggers.
   */
  method ValidateRuleCycles(definitions: Definitions) returns (r: Result<(), nat>, ghost rank: map<nat, nat>)
    ensures r.Ok? <==> !Cyclic(TriggerGraph(definitions))
    ensures r.Ok? ==> Ranked(TriggerGraph(definitions), rank)
    ensures r.Err? ==> Lasso(TriggerGraph(definitions), r.error)
  {
    hide TriggerGraph, Triggered, Cyclic, Ranked, Lasso, EdgesOf, FinishedRanks;
    ghost var g := TriggerGraph(definitions);
    var edges := BuildEdges(definitions);
    TriggerGraphClosed(definitions, edges);
    var search := new CycleSearch(edges, g);
    var rest := edges.Keys;
    while rest != {}
      invariant search.edges == edges && search.graph == g && search.Valid([])
      invariant rest <= edges.Keys && edges.Keys - rest <= search.visited
      decreases rest
    {
      var id := Least(rest);
      assert search.Extends([], id);
      var cyclic := search.From(id, []);
      if cyclic {
        assert ([] + [id])[0] == id;
        LassoIsCyclic(g, id);
        return Err(id), map[];
      }
      rest := rest - {id};
    }
    FinishedIsRanked(edges, g, search.visited, search.rank);
    RankedIsAcyclic(g, RankOf(g, search.rank));
    return Ok(()), RankOf(g, search.rank);
  }

  /** In accepted definitions no chain of triggers is longer than the number of rules. */
  lemma ChainsAreShort(definitions: Definitions, chain: seq<nat>)
    requires !Cyclic(TriggerGraph(definitions)) && IsWalk(TriggerGraph(definitions), chain)
    ensures |chain| <= |TriggerGraph(definitions)|
    ensures forall i, j :: 0 <= i < j < |chain| ==> chain[i] != chain[j]
  {
    var g := TriggerGraph(definitions);
    if |chain| > |g| {
      LongWalkIsCyclic(g, chain);
    }
    forall i, j | 0 <= i < j < |chain|
      ensures chain[i] != chain[j]
    {
      assert chain[i] == chain[j] ==> IsCycle(g, chain[i..j + 1]);
    }
  }
}
