/** The dependency order of a set of packages, always taking the smallest ready one. */
module DependencyOrders {
  import opened Outcomes
  import opened Ordering
  import opened Graphs
  import opened Locks
  import opened Packages

  function DependentsOf(outgoing: map<ModId, seq<ModId>>, b: ModId): seq<ModId> {
    if b in outgoing then outgoing[b] else []
  }

  /** The counters describe the given part of every package's dependencies. */
  ghost predicate Counted(
    packages: PackageMap, done: map<ModId, seq<Dependency>>, incoming: map<ModId, nat>,
    outgoing: map<ModId, seq<ModId>>)
  {
    done.Keys == packages.Keys && IncomingCounted(packages, done, incoming) && OutgoingCounted(packages, done, outgoing)
  }

  ghost predicate IncomingCounted(packages: PackageMap, done: map<ModId, seq<Dependency>>, incoming: map<ModId, nat>)
    requires done.Keys == packages.Keys
  {
    incoming.Keys == packages.Keys && forall m :: m in packages ==> incoming[m] == Pending(packages, done[m], {})
  }

  ghost predicate OutgoingCounted(
    packages: PackageMap, done: map<ModId, seq<Dependency>>, outgoing: map<ModId, seq<ModId>>)
    requires done.Keys == packages.Keys
  {
    && (forall b, m :: b in packages && m in packages ==> multiset(DependentsOf(outgoing, b))[m] == Naming(done[m], b))
    && outgoing.Keys <= packages.Keys
    && (forall b, m :: b in outgoing && m in outgoing[b] ==> m in packages)
  }

  ghost function AllDependencies(packages: PackageMap): map<ModId, seq<Dependency>> {
    map m | m in packages :: packages[m].dependencies
  }

  lemma CountNext(packages: PackageMap, ds: seq<Dependency>, d: Dependency, b: ModId)
    ensures Pending(packages, ds + [d], {}) == Pending(packages, ds, {}) + (if d.modId in packages then 1 else 0)
    ensures Naming(ds + [d], b) == Naming(ds, b) + (if d.modId == b then 1 else 0)
  {
    assert (ds + [d])[..|ds|] == ds;
  }

  /** Looking at one more dependency of a package. */
  lemma CountOne(
    packages: PackageMap, done: map<ModId, seq<Dependency>>, incoming: map<ModId, nat>,
    outgoing: map<ModId, seq<ModId>>, m: ModId, d: Dependency)
    requires Counted(packages, done, incoming, outgoing) && m in packages
    ensures var done' := done[m := done[m] + [d]];
      && (d.modId !in packages ==> Counted(packages, done', incoming, outgoing))
      && (d.modId in packages ==>
            Counted(packages, done', incoming[m := incoming[m] + 1],
              outgoing[d.modId := DependentsOf(outgoing, d.modId) + [m]]))
  {
    hide OutgoingCounted, Pending, Naming;
    CountOutgoing(packages, done, outgoing, m, d);
    CountNext(packages, done[m], d, d.modId);
  }

  lemma CountOutgoing(
    packages: PackageMap, done: map<ModId, seq<Dependency>>, outgoing: map<ModId, seq<ModId>>, m: ModId, d: Dependency)
    requires done.Keys == packages.Keys && OutgoingCounted(packages, done, outgoing) && m in packages
    ensures OutgoingCounted(packages, done[m := done[m] + [d]],
      if d.modId in packages then outgoing[d.modId := DependentsOf(outgoing, d.modId) + [m]] else outgoing)
  {
    hide Naming;
    var done' := done[m := done[m] + [d]];
    var outgoing' := if d.modId in packages then outgoing[d.modId := DependentsOf(outgoing, d.modId) + [m]]
      else outgoing;
    forall b, n | b in packages && n in packages
      ensures multiset(DependentsOf(outgoing', b))[n] == Naming(done'[n], b)
    {
      CountNext(packages, done[m], d, b);
      assert multiset(DependentsOf(outgoing, b))[n] == Naming(done[n], b);
    }
    forall b, n | b in outgoing' && n in outgoing'[b]
      ensures n in packages
    {
      assert n in DependentsOf(outgoing, b) || n == m;
    }
  }

  /** Check one dependency and count its edge if its target is present. */
  method CountDependency(
    packages: PackageMap, m: ModId, d: Dependency, ghost done: map<ModId, seq<Dependency>>,
    incoming0: map<ModId, nat>, outgoing0: map<ModId, seq<ModId>>)
    returns (fault: Option<PackageError>, incoming: map<ModId, nat>, outgoing: map<ModId, seq<ModId>>)
    requires m in packages && Counted(packages, done, incoming0, outgoing0)
    ensures fault.None? <==> Met(packages, d)
    ensures fault.Some? ==> FirstUnmet(packages, [d], 0, fault.value)
    ensures fault.None? ==> m in done && Counted(packages, done[m := done[m] + [d]], incoming, outgoing)
  {
    hide Counted;
    CountedKeys(packages, done, incoming0, outgoing0);
    CountOne(packages, done, incoming0, outgoing0, m, d);
    incoming, outgoing := incoming0, outgoing0;
    if d.modId !in packages {
      return if d.optional then None else Some(MissingDependency), incoming, outgoing;
    }
    if !d.requirement(packages[d.modId].version) {
      return Some(IncompatibleDependency), incoming, outgoing;
    }
    incoming := incoming[m := incoming[m] + 1];
    outgoing := outgoing[d.modId := DependentsOf(outgoing, d.modId) + [m]];
    return None, incoming, outgoing;
  }

  /** Check one package's dependencies and count their edges. */
  method CountPackage(
    packages: PackageMap, m: ModId, ghost done: map<ModId, seq<Dependency>>, incoming0: map<ModId, nat>,
    outgoing0: map<ModId, seq<ModId>>)
    returns (fault: Option<PackageError>, incoming: map<ModId, nat>, outgoing: map<ModId, seq<ModId>>)
    requires m in packages && Counted(packages, done, incoming0, outgoing0) && m in done && done[m] == []
    ensures fault.None? <==> AllMet(packages, packages[m].dependencies)
    ensures fault.Some? ==> exists k: nat :: FirstUnmet(packages, packages[m].dependencies, k, fault.value)
    ensures fault.None? ==> Counted(packages, done[m := packages[m].dependencies], incoming, outgoing)
  {
    hide Counted, Met;
    var ds := packages[m].dependencies;
    incoming, outgoing := incoming0, outgoing0;
    ghost var counted: map<ModId, seq<Dependency>> := done;
    assert counted == done[m := ds[..0]];
    for k := 0 to |ds|
      invariant Counted(packages, counted, incoming, outgoing)
      invariant counted == done[m := ds[..k]]
      invariant AllMet(packages, ds[..k])
    {
      fault, incoming, outgoing := CountDependency(packages, m, ds[k], counted, incoming, outgoing);
      if fault.Some? {
        assert FirstUnmet(packages, ds, k, fault.value);
        return;
      }
      counted := counted[m := counted[m] + [ds[k]]];
      assert ds[..k + 1] == ds[..k] + [ds[k]];
    }
    assert ds[..|ds|] == ds;
    return None, incoming, outgoing;
  }

  lemma CountedKeys(
    packages: PackageMap, done: map<ModId, seq<Dependency>>, incoming: map<ModId, nat>,
    outgoing: map<ModId, seq<ModId>>)
    requires Counted(packages, done, incoming, outgoing)
    ensures incoming.Keys == packages.Keys == done.Keys
  {}

  /** The first loop: check every dependency and count the edges. */
  method CountEdges(packages: PackageMap) returns (r: Result<(map<ModId, nat>, map<ModId, seq<ModId>>), PackageError>)
    ensures r.Ok? <==> Resolved(packages)
    ensures r.Ok? ==> Counted(packages, AllDependencies(packages), r.value.0, r.value.1)
    ensures r.Err? ==> FirstUnresolved(packages, r.error)
  {
    hide *;
    AscendingFacts(packages.Keys);
    var mods := Ascending(packages.Keys);
    var incoming: map<ModId, nat> := map m | m in packages :: 0;
    var outgoing: map<ModId, seq<ModId>> := map[];
    NothingCounted(packages, mods, incoming);
    for i := 0 to |mods|
      invariant Counted(packages, DoneUpTo(packages, mods[..i]), incoming, outgoing)
      invariant ClearUpTo(packages, mods, i)
    {
      var fault;
      NotDone(packages, mods, i);
      fault, incoming, outgoing := CountPackage(packages, mods[i], DoneUpTo(packages, mods[..i]), incoming, outgoing);
      if fault.Some? {
        ghost var k: nat :| FirstUnmet(packages, packages[mods[i]].dependencies, k, fault.value);
        UnresolvedAt(packages, mods, i, k, fault.value);
        return Err(fault.value);
      }
      ClearNext(packages, mods, i);
    }
    AllDone(packages, mods);
    return Ok((incoming, outgoing));
  }

  /** The dependencies of the first packages are met. */
  ghost predicate ClearUpTo(packages: PackageMap, mods: seq<ModId>, i: nat)
    requires i <= |mods| && forall m :: m in mods ==> m in packages
  {
    forall j :: 0 <= j < i ==> AllMet(packages, packages[mods[j]].dependencies)
  }

  lemma ClearNext(packages: PackageMap, mods: seq<ModId>, i: nat)
    requires i < |mods| && (forall m :: m in mods ==> m in packages) && ClearUpTo(packages, mods, i)
    requires mods[i] in packages && AllMet(packages, packages[mods[i]].dependencies)
    ensures ClearUpTo(packages, mods, i + 1)
  {}

  lemma UnresolvedAt(packages: PackageMap, mods: seq<ModId>, i: nat, k: nat, error: PackageError)
    requires i < |mods| && (forall m :: m in mods <==> m in packages) && ClearUpTo(packages, mods, i)
    requires forall j, l :: 0 <= j < l < |mods| ==> mods[j] < mods[l]
    requires mods[i] in packages && FirstUnmet(packages, packages[mods[i]].dependencies, k, error)
    ensures FirstUnresolved(packages, error) && !Resolved(packages)
  {
    forall n | n in packages && n < mods[i]
      ensures AllMet(packages, packages[n].dependencies)
    {
      assert n in mods;
      var j :| 0 <= j < |mods| && mods[j] == n;
    }
  }

  /** The dependencies looked at once the given packages are counted. */
  ghost function DoneUpTo(packages: PackageMap, mods: seq<ModId>): map<ModId, seq<Dependency>> {
    map m | m in packages :: if m in mods then packages[m].dependencies else []
  }

  lemma AllDone(packages: PackageMap, mods: seq<ModId>)
    requires forall m :: m in packages ==> m in mods
    requires (forall m :: m in mods ==> m in packages) && ClearUpTo(packages, mods, |mods|)
    ensures DoneUpTo(packages, mods[..|mods|]) == AllDependencies(packages)
    ensures Resolved(packages)
  {
    assert mods[..|mods|] == mods;
  }

  lemma NotDone(packages: PackageMap, mods: seq<ModId>, i: nat)
    requires i < |mods| && mods[i] in packages
    requires forall j, k :: 0 <= j < k < |mods| ==> mods[j] < mods[k]
    ensures mods[i] in DoneUpTo(packages, mods[..i]) && DoneUpTo(packages, mods[..i])[mods[i]] == []
    ensures DoneUpTo(packages, mods[..i])[mods[i] := packages[mods[i]].dependencies] == DoneUpTo(packages,
      mods[..i + 1])
  {
    assert mods[..i + 1] == mods[..i] + [mods[i]];
  }

  lemma NothingCounted(packages: PackageMap, mods: seq<ModId>, incoming: map<ModId, nat>)
    requires incoming == (map m | m in packages :: 0) && forall m :: m in mods ==> m in packages
    ensures Counted(packages, DoneUpTo(packages, mods[..0]), incoming, map[]) && ClearUpTo(packages, mods, 0)
  {}

  function ModRank(m: ModId): Rank { (m, 0) }

  /** `dependents.sort()` for every entry. */
  method SortDependents(
    packages: PackageMap, ghost done: map<ModId, seq<Dependency>>, incoming: map<ModId, nat>,
    outgoing: map<ModId, seq<ModId>>)
    returns (sorted: map<ModId, seq<ModId>>)
    requires Counted(packages, done, incoming, outgoing)
    ensures Counted(packages, done, incoming, sorted)
    ensures forall b :: b in sorted ==> SortedBy(sorted[b], ModRank)
  {
    hide Pending, Naming, Sort, SortedBy;
    sorted := map b | b in outgoing :: Sort(outgoing[b], ModRank);
    forall b | b in outgoing
      ensures SortedBy(sorted[b], ModRank) && multiset(sorted[b]) == multiset(outgoing[b])
      ensures forall m :: m in sorted[b] <==> m in outgoing[b]
    {
      SortCorrect(outgoing[b], ModRank);
      SortMembers(outgoing[b], ModRank);
    }
  }

  /** Decrement every dependent's counter, once per edge; those reaching zero become ready. */
  method Release(incoming: map<ModId, nat>, ready: set<ModId>, dependents: seq<ModId>)
    returns (incoming': map<ModId, nat>, ready': set<ModId>)
    requires forall m :: m in dependents ==> m in incoming
    requires forall m :: m in incoming ==> multiset(dependents)[m] <= incoming[m]
    ensures incoming'.Keys == incoming.Keys
    ensures forall m :: m in incoming ==> incoming'[m] + multiset(dependents)[m] == incoming[m]
    ensures ready' == ready + set m | m in dependents && incoming'[m] == 0
  {
    incoming', ready' := incoming, ready;
    for i := 0 to |dependents|
      invariant incoming'.Keys == incoming.Keys
      invariant forall m :: m in incoming ==> incoming'[m] + multiset(dependents[..i])[m] == incoming[m]
      invariant ready' == ready + set m | m in dependents[..i] && incoming'[m] == 0
    {
      var d := dependents[i];
      OneMore(dependents, i);
      incoming' := incoming'[d := if incoming'[d] == 0 then 0 else incoming'[d] - 1];
      if incoming'[d] == 0 {
        ready' := ready' + {d};
      }
    }
    assert dependents[..|dependents|] == dependents;
  }

  lemma OneMore(s: seq<ModId>, i: nat)
    requires i < |s|
    ensures multiset(s[..i + 1]) == multiset(s[..i]) + multiset{s[i]}
    ensures multiset(s[..i])[s[i]] < multiset(s)[s[i]]
    ensures forall m :: m in s[..i + 1] <==> m in s[..i] || m == s[i]
  {
    assert s[..i + 1] == s[..i] + [s[i]];
    assert s == s[..i + 1] + s[i + 1..];
  }

  ghost function Emitted(order: seq<ModId>): set<ModId> {
    set m | m in order
  }

  /** Where the ordering loop stands. */
  ghost predicate Progress(packages: PackageMap, incoming: map<ModId, nat>, ready: set<ModId>, order: seq<ModId>) {
    var g := DependencyGraph(packages);
    && Distinct(order) && (forall m :: m in order ==> m in packages)
    && incoming.Keys == packages.Keys
    && (forall m :: m in packages ==> incoming[m] == Pending(packages, packages[m].dependencies, Emitted(order)))
    && ready == Available(g, order)
    && Greedy(g, order)
  }

  /** A package is available exactly when nothing it needs is pending. */
  lemma AvailableIsZero(packages: PackageMap, order: seq<ModId>, m: ModId)
    requires m in packages
    ensures m in Available(DependencyGraph(packages), order) <==>
      m !in order && Pending(packages, packages[m].dependencies, Emitted(order)) == 0
  {
    PendingZero(packages, packages[m].dependencies, Emitted(order));
  }

  lemma EmittedAreSatisfied(packages: PackageMap, order: seq<ModId>, m: ModId)
    requires Greedy(DependencyGraph(packages), order) && m in order && m in packages
    ensures Pending(packages, packages[m].dependencies, Emitted(order)) == 0
  {
    PendingZero(packages, packages[m].dependencies, Emitted(order));
    var i :| 0 <= i < |order| && order[i] == m;
    assert order[i] in Available(DependencyGraph(packages), order[..i]);
  }

  lemma StartIsProgress(
    packages: PackageMap, incoming: map<ModId, nat>, outgoing: map<ModId, seq<ModId>>, ready: set<ModId>)
    requires Counted(packages, AllDependencies(packages), incoming, outgoing)
    requires ready == set m | m in packages && incoming[m] == 0
    ensures Progress(packages, incoming, ready, [])
  {
    hide Available, OutgoingCounted, Pending;
    assert Emitted([]) == {};
    AvailableArePackages(packages, []);
    forall m | m in packages
      ensures m in ready <==> m in Available(DependencyGraph(packages), [])
    {
      AvailableIsZero(packages, [], m);
    }
  }

  /** What one package waits for after another is emitted. */
  lemma EmitFor(packages: PackageMap, order: seq<ModId>, next: ModId, m: ModId)
    requires m in packages && next in packages && next !in order
    ensures Emitted(order + [next]) == Emitted(order) + {next}
    ensures Pending(packages, packages[m].dependencies, Emitted(order + [next])) + Naming(packages[m].dependencies,
      next)
      == Pending(packages, packages[m].dependencies, Emitted(order))
  {
    PendingFalls(packages, packages[m].dependencies, Emitted(order), next);
    assert Emitted(order + [next]) == Emitted(order) + {next};
  }

  /** A package is available after `next` exactly when it was before, or waits on nothing else. */
  lemma ReadyAfter(packages: PackageMap, order: seq<ModId>, next: ModId, m: ModId)
    requires Greedy(DependencyGraph(packages), order) && m in packages
    requires next in Available(DependencyGraph(packages), order)
    ensures m in Available(DependencyGraph(packages), order + [next]) <==>
      || (m in Available(DependencyGraph(packages), order) && m != next)
      || (Naming(packages[m].dependencies, next) > 0
        && Pending(packages, packages[m].dependencies, Emitted(order + [next])) == 0)
  {
    EmitFor(packages, order, next, m);
    AvailableIsZero(packages, order, m);
    AvailableIsZero(packages, order, next);
    AvailableIsZero(packages, order + [next], m);
    if m in order {
      EmittedAreSatisfied(packages, order, m);
    }
  }

  lemma StillGreedy(g: Graph, order: seq<ModId>, next: ModId)
    requires Greedy(g, order) && Distinct(order)
    requires IsLeast(next, Available(g, order))
    ensures Greedy(g, order + [next]) && Distinct(order + [next])
  {
    hide Available;
    var longer := order + [next];
    forall i | 0 <= i < |longer|
      ensures longer[i] in Available(g, longer[..i]) && forall n :: n in Available(g, longer[..i]) ==> longer[i] <= n
    {
      assert longer[..i] == order[..i];
      assert order[..|order|] == order;
    }
    assert next !in order by {
      NotYetEmitted(g, order, next);
    }
  }

  lemma NotYetEmitted(g: Graph, order: seq<ModId>, next: ModId)
    requires next in Available(g, order)
    ensures next !in order && next in g
  {}

  /** Emitting the least ready package and releasing its dependents keeps the invariant. */
  lemma EmitKeepsProgress(
    packages: PackageMap, incoming: map<ModId, nat>, ready: set<ModId>, order: seq<ModId>, next: ModId,
    dependents: seq<ModId>, incoming': map<ModId, nat>, ready': set<ModId>)
    requires Progress(packages, incoming, ready, order) && IsLeast(next, ready)
    requires forall m :: m in packages ==> multiset(dependents)[m] == Naming(packages[m].dependencies, next)
    requires forall m :: m in dependents ==> m in packages
    requires incoming'.Keys == incoming.Keys
    requires forall m :: m in incoming ==> incoming'[m] + multiset(dependents)[m] == incoming[m]
    requires ready' == (ready - {next}) + set m | m in dependents && incoming'[m] == 0
    ensures Progress(packages, incoming', ready', order + [next])
  {
    hide Available, Pending, Naming;
    var g := DependencyGraph(packages);
    NotYetEmitted(g, order, next);
    StillGreedy(g, order, next);
    forall m | m in packages
      ensures incoming'[m] == Pending(packages, packages[m].dependencies, Emitted(order + [next]))
      ensures m in ready' <==> m in Available(g, order + [next])
    {
      EmitFor(packages, order, next, m);
      ReadyAfter(packages, order, next, m);
      assert m in dependents <==> multiset(dependents)[m] > 0;
    }
    AvailableArePackages(packages, order + [next]);
    AvailableArePackages(packages, order);
  }

  lemma AvailableArePackages(packages: PackageMap, order: seq<ModId>)
    ensures Available(DependencyGraph(packages), order) <= packages.Keys
  {}

  /** With nothing ready, the packages left over, if any, are stuck in a cycle. */
  lemma LeftoverIsCyclic(packages: PackageMap, order: seq<ModId>)
    requires Available(DependencyGraph(packages), order) == {}
    requires packages.Keys - Emitted(order) != {}
    ensures Cyclic(DependencyGraph(packages))
  {
    var g := DependencyGraph(packages);
    var rest := packages.Keys - Emitted(order);
    forall n | n in rest
      ensures g[n] * rest != {}
    {
      assert n !in Available(g, order);
      var b :| b in g[n] && b in g && b !in order;
      assert b in g[n] * rest;
    }
    StuckIsCyclic(g, rest);
  }

  /** With nothing ready, either everything is emitted or there is a cycle. */
  lemma NothingReady(packages: PackageMap, incoming: map<ModId, nat>, order: seq<ModId>)
    requires Progress(packages, incoming, {}, order)
    ensures |order| == |packages| <==> !Cyclic(DependencyGraph(packages))
    ensures |order| == |packages| ==> Topological(DependencyGraph(packages), order)
  {
    hide Available, Greedy, Pending, Cyclic, Topological;
    var g := DependencyGraph(packages);
    EmittedCount(order);
    assert Emitted(order) <= packages.Keys;
    if |order| == |packages| {
      SubsetOfSameSize(Emitted(order), packages.Keys);
      EverythingEmitted(g, order);
      TopologicalIsAcyclic(g, order);
    } else {
      assert packages.Keys == Emitted(order) + (packages.Keys - Emitted(order));
      LeftoverIsCyclic(packages, order);
    }
  }

  lemma EverythingEmitted(g: Graph, order: seq<ModId>)
    requires Greedy(g, order) && Distinct(order) && Emitted(order) == g.Keys
    ensures Topological(g, order)
  {
    assert forall n :: n in order <==> n in Emitted(order);
    forall i | 0 <= i < |order|
      ensures forall b :: b in g[order[i]] && b in g ==> b in order[..i]
    {
      assert order[i] in Available(g, order[..i]);
    }
  }

  lemma {:induction false} EmittedCount(order: seq<ModId>)
    requires Distinct(order)
    ensures |Emitted(order)| == |order|
    decreases |order|
  {
    if order != [] {
      var rest, last := order[..|order| - 1], order[|order| - 1];
      EmittedCount(rest);
      assert Emitted(order) == Emitted(rest) + {last};
    }
  }

  lemma {:induction false} SubsetOfSameSize(a: set<nat>, b: set<nat>)
    requires a <= b && |a| == |b|
    ensures a == b
  {
    if a != {} {
      var x :| x in a;
      SubsetOfSameSize(a - {x}, b - {x});
    }
  }

  /**
   * `dependency_order`. It succeeds exactly when every declared dependency is
   * present at an accepted version, or absent and optional, and no package
   * depends on itself through others; it then returns the lexicographically
   * least order that installs dependencies first.
   */
  method DependencyOrder(packages: PackageMap) returns (r: Result<seq<ModId>, PackageError>)
    ensures r.Ok? <==> Resolved(packages) && !Cyclic(DependencyGraph(packages))
    ensures r.Ok? <==>
      && !Cyclic(DependencyGraph(packages))
      && forall m, k :: m in packages && 0 <= k < |packages[m].dependencies| ==>
           var d := packages[m].dependencies[k];
           if d.modId in packages then d.requirement(packages[d.modId].version) else d.optional
    ensures r.Ok? ==> Topological(DependencyGraph(packages), r.value)
    ensures r.Ok? ==>
      forall other :: Topological(DependencyGraph(packages), other) ==> LexicographicallyAtMost(r.value, other)
    ensures Resolved(packages) && Cyclic(DependencyGraph(packages)) ==> r == Err(DependencyCycle)
    ensures !Resolved(packages) ==> r.Err? && FirstUnresolved(packages, r.error)
    ensures r.Err? ==>
      r.error == MissingDependency || r.error == IncompatibleDependency || r.error == DependencyCycle
    ensures r == Err(IncompatibleDependency) ==>
      exists m, k :: m in packages && 0 <= k < |packages[m].dependencies|
        && var d := packages[m].dependencies[k]; d.modId in packages && !d.requirement(packages[d.modId].version)
    ensures r == Err(MissingDependency) ==>
      exists m, k :: m in packages && 0 <= k < |packages[m].dependencies|
        && var d := packages[m].dependencies[k]; d.modId !in packages && !d.optional
  {
    hide Cyclic, Topological, LexicographicallyAtMost, Pending, Naming, Available, Greedy, Ascending,
      FirstUnresolved;
    ghost var g := DependencyGraph(packages);
    var counted := CountEdges(packages);
    if counted.Err? {
      UnresolvedMeans(packages, counted.error);
      return Err(counted.error);
    }
    var incoming := counted.value.0;
    var outgoing := SortDependents(packages, AllDependencies(packages), incoming, counted.value.1);
    ghost var counts := incoming;
    var ready := set m | m in incoming && incoming[m] == 0;
    StartIsProgress(packages, incoming, outgoing, ready);
    var order: seq<ModId> := [];
    while ready != {}
      invariant Progress(packages, incoming, ready, order)
      invariant |order| <= |packages|
      decreases |packages| - |order|
    {
      var next := Least(ready);
      var dependents := DependentsOf(outgoing, next);
      BeforeRelease(packages, incoming, counts, outgoing, ready, order, next);
      ghost var incoming0, ready0 := incoming, ready;
      incoming, ready := Release(incoming, ready - {next}, dependents);
      EmitKeepsProgress(packages, incoming0, ready0, order, next, dependents, incoming, ready);
      order := order + [next];
      OrderFits(packages, incoming, ready, order);
    }
    NothingReady(packages, incoming, order);
    if |order| != |packages| {
      return Err(DependencyCycle);
    }
    FinishedIsLeast(packages, incoming, order);
    return Ok(order);
  }

  lemma UnresolvedMeans(packages: PackageMap, error: PackageError)
    requires FirstUnresolved(packages, error)
    ensures error == MissingDependency || error == IncompatibleDependency
    ensures error == IncompatibleDependency ==>
      exists m, k :: m in packages && 0 <= k < |packages[m].dependencies|
        && var d := packages[m].dependencies[k]; d.modId in packages && !d.requirement(packages[d.modId].version)
    ensures error == MissingDependency ==>
      exists m, k :: m in packages && 0 <= k < |packages[m].dependencies|
        && var d := packages[m].dependencies[k]; d.modId !in packages && !d.optional
  {
    var m, k: nat :| m in packages && FirstUnmet(packages, packages[m].dependencies, k, error);
    assert 0 <= k < |packages[m].dependencies|;
  }

  ghost predicate Declares(p: Package, target: ModId) {
    exists k :: 0 <= k < |p.dependencies| && p.dependencies[k].modId == target
  }

  /** Packages that each declare a dependency on the next, round to the first. */
  ghost predicate DependsInACircle(packages: PackageMap, circle: seq<ModId>) {
    && |circle| >= 2 && circle[0] == circle[|circle| - 1]
    && (forall i :: 0 <= i < |circle| ==> circle[i] in packages)
    && (forall i :: 0 <= i < |circle| - 1 ==>
          Declares(packages[circle[i]], circle[i + 1]))
  }

  lemma EdgeIsDeclared(packages: PackageMap, a: ModId, b: ModId)
    requires a in packages && b in packages
    ensures DependencyGraph(packages).Keys == packages.Keys
    ensures b in DependencyGraph(packages)[a] <==> Declares(packages[a], b)
  {}

  /** A cycle of the graph is a circle of declared dependencies. */
  lemma CycleIsDeclared(packages: PackageMap)
    ensures Cyclic(DependencyGraph(packages)) <==> exists circle :: DependsInACircle(packages, circle)
  {
    forall circle: seq<ModId>
      ensures IsCycle(DependencyGraph(packages), circle) <==> DependsInACircle(packages, circle)
    {
      CircleIsCycle(packages, circle);
    }
  }

  lemma CircleIsCycle(packages: PackageMap, circle: seq<ModId>)
    ensures IsCycle(DependencyGraph(packages), circle) <==> DependsInACircle(packages, circle)
  {
    assert DependencyGraph(packages).Keys == packages.Keys;
    if forall i :: 0 <= i < |circle| ==> circle[i] in packages {
      forall i | 0 <= i < |circle| - 1
        ensures circle[i + 1] in DependencyGraph(packages)[circle[i]] <==> Declares(packages[circle[i]], circle[i + 1])
      {
        EdgeIsDeclared(packages, circle[i], circle[i + 1]);
      }
      hide DependencyGraph;
    }
  }

  /** In a topological order every present dependency of a package comes before it. */
  lemma DependenciesFirst(packages: PackageMap, order: seq<ModId>)
    ensures Topological(DependencyGraph(packages), order) <==>
      && Distinct(order) && (forall m :: m in order <==> m in packages)
      && forall i, m :: 0 <= i < |order| && order[i] in packages && m in packages ==>
           Declares(packages[order[i]], m) ==> m in order[..i]
  {
    forall i | 0 <= i < |order|
      ensures order[i] in order
    {}
    forall a, b | a in packages && b in packages
      ensures b in DependencyGraph(packages)[a] <==> Declares(packages[a], b)
    {
      EdgeIsDeclared(packages, a, b);
    }
  }

  lemma BeforeRelease(
    packages: PackageMap, incoming: map<ModId, nat>, counts: map<ModId, nat>, outgoing: map<ModId, seq<ModId>>,
    ready: set<ModId>, order: seq<ModId>, next: ModId)
    requires Progress(packages, incoming, ready, order) && next in ready
    requires Counted(packages, AllDependencies(packages), counts, outgoing)
    ensures forall m :: m in DependentsOf(outgoing, next) ==> m in packages
    ensures forall m :: m in packages ==>
      && multiset(DependentsOf(outgoing, next))[m] == Naming(packages[m].dependencies, next)
      && multiset(DependentsOf(outgoing, next))[m] <= incoming[m]
  {
    hide Available, Pending, Naming;
    NotYetEmitted(DependencyGraph(packages), order, next);
    forall m | m in packages
      ensures Naming(packages[m].dependencies, next) <= incoming[m]
    {
      EmitFor(packages, order, next, m);
    }
  }

  lemma OrderFits(packages: PackageMap, incoming: map<ModId, nat>, ready: set<ModId>, order: seq<ModId>)
    requires Progress(packages, incoming, ready, order)
    ensures |order| <= |packages|
  {
    hide Available, Pending, Greedy;
    EmittedCount(order);
    SubsetSize(Emitted(order), packages.Keys);
  }

  lemma {:induction false} SubsetSize(a: set<nat>, b: set<nat>)
    requires a <= b
    ensures |a| <= |b|
  {
    if a != {} {
      var x :| x in a;
      SubsetSize(a - {x}, b - {x});
    }
  }

  lemma FinishedIsLeast(packages: PackageMap, incoming: map<ModId, nat>, order: seq<ModId>)
    requires Progress(packages, incoming, {}, order)
    requires Topological(DependencyGraph(packages), order)
    ensures forall other :: Topological(DependencyGraph(packages), other) ==> LexicographicallyAtMost(order, other)
  {
    hide Available, Pending, Topological, LexicographicallyAtMost;
    forall other | Topological(DependencyGraph(packages), other)
      ensures LexicographicallyAtMost(order, other)
    {
      GreedyIsLeast(DependencyGraph(packages), order, other);
    }
  }
}
