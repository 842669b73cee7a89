/** The lock recording a compiled set of packages. */
module PackageLocks {
  import opened Outcomes
  import opened Ordering
  import opened Graphs
  import opened Locks
  import opened Packages
  import opened DependencyOrders

  function LockedDependencyRank(d: LockedDependency): Rank { (d.modId, 0) }

  /** The present dependencies at the versions found, in declaration order. */
  function PresentLocked(packages: PackageMap, ds: seq<Dependency>): seq<LockedDependency>
    decreases |ds|
  {
    if ds == [] then []
    else
      var rest := PresentLocked(packages, ds[..|ds| - 1]);
      var d := ds[|ds| - 1];
      if d.modId in packages then rest + [LockedDependency(d.modId, packages[d.modId].version, d.optional)] else rest
  }

  function PatchIds(patches: seq<PatchDeclaration>): seq<DefinitionId> {
    seq(|patches|, i requires 0 <= i < |patches| => patches[i].id)
  }

  /** The lock entry of one package. */
  function EntryFor(packages: PackageMap, m: ModId): LockedMod
    requires m in packages
  {
    var p := packages[m];
    LockedMod(m, p.version, p.contentHash, p.manifestSchema, p.contentSchema, p.sourceKind,
      Sort(PresentLocked(packages, p.dependencies), LockedDependencyRank), Sort(PatchIds(p.patches), DefinitionRank))
  }

  ghost predicate LocksDependency(packages: PackageMap, d: Dependency, l: LockedDependency) {
    && d.modId in packages
    && l.modId == d.modId && l.version == packages[d.modId].version && l.optional == d.optional
  }

  /** What an entry records: the package, its present dependencies as they were found, its patches. */
  ghost predicate Records(packages: PackageMap, m: ModId, entry: LockedMod)
    requires m in packages
  {
    var p := packages[m];
    && entry.modId == m && entry.version == p.version && entry.contentHash == p.contentHash
    && entry.manifestSchema == p.manifestSchema && entry.contentSchema == p.contentSchema
    && entry.sourceKind == p.sourceKind
    && (forall l :: l in entry.dependencies <==>
          exists k :: 0 <= k < |p.dependencies| && LocksDependency(packages, p.dependencies[k], l))
    && SortedBy(entry.dependencies, LockedDependencyRank)
    && (forall id :: id in entry.appliedPatches <==> exists k :: 0 <= k < |p.patches| && p.patches[k].id == id)
    && SortedBy(entry.appliedPatches, DefinitionRank)
  }

  lemma EntryRecords(packages: PackageMap, m: ModId)
    requires m in packages
    ensures Records(packages, m, EntryFor(packages, m))
  {
    EntryLocksPresent(packages, packages[m].dependencies);
    EntryListsPatches(packages[m].patches);
    hide Sort, PresentLocked, PatchIds, SortedBy, LocksDependency;
  }

  lemma EntryLocksPresent(packages: PackageMap, ds: seq<Dependency>)
    ensures var sorted := Sort(PresentLocked(packages, ds), LockedDependencyRank);
      && SortedBy(sorted, LockedDependencyRank)
      && (forall l :: l in sorted <==> exists k :: 0 <= k < |ds| && LocksDependency(packages, ds[k], l))
  {
    var present := PresentLocked(packages, ds);
    SortMembers(present, LockedDependencyRank);
    SortCorrect(present, LockedDependencyRank);
    hide Sort, PresentLocked, LocksDependency, SortedBy;
    forall l
      ensures l in present <==> exists k :: 0 <= k < |ds| && LocksDependency(packages, ds[k], l)
    {
      PresentLockedExactly(packages, ds, l);
    }
  }

  lemma EntryListsPatches(patches: seq<PatchDeclaration>)
    ensures var sorted := Sort(PatchIds(patches), DefinitionRank);
      && SortedBy(sorted, DefinitionRank)
      && (forall id :: id in sorted <==> exists k :: 0 <= k < |patches| && patches[k].id == id)
  {
    var ids := PatchIds(patches);
    SortMembers(ids, DefinitionRank);
    SortCorrect(ids, DefinitionRank);
    assert forall k :: 0 <= k < |patches| ==> ids[k] == patches[k].id;
    hide Sort, PatchIds, SortedBy;
  }

  lemma {:induction false} PresentLockedExactly(packages: PackageMap, ds: seq<Dependency>, l: LockedDependency)
    ensures l in PresentLocked(packages, ds) <==> exists k :: 0 <= k < |ds| && LocksDependency(packages, ds[k], l)
    decreases |ds|
  {
    if ds != [] {
      var rest, last := ds[..|ds| - 1], ds[|ds| - 1];
      PresentLockedExactly(packages, rest, l);
      if k :| 0 <= k < |ds| && LocksDependency(packages, ds[k], l) {
        assert k < |rest| ==> LocksDependency(packages, rest[k], l);
      }
      if k :| 0 <= k < |rest| && LocksDependency(packages, rest[k], l) {
        assert LocksDependency(packages, ds[k], l);
      }
    }
  }

  function LockOf(packages: PackageMap, order: seq<ModId>): seq<LockedMod>
    requires forall m :: m in order ==> m in packages
  {
    seq(|order|, i requires 0 <= i < |order| => assert order[i] in order; EntryFor(packages, order[i]))
  }

  /** `build_lock`: one entry per package in order, then validation. */
  method BuildLock(packages: PackageMap, order: seq<ModId>) returns (r: Result<seq<LockedMod>, PackageError>)
    ensures r.Ok? <==> (forall m :: m in order ==> m in packages) && ValidLock(LockOf(packages, order))
    ensures r.Ok? ==> r.value == LockOf(packages, order)
    ensures r.Ok? ==> |r.value| == |order|
    ensures r.Ok? ==> forall i :: 0 <= i < |order| ==> order[i] in packages && Records(packages, order[i], r.value[i])
    ensures r.Err? ==> r.error == InvalidLock
  {
    hide ValidLock, EntryFor, Records;
    var mods: seq<LockedMod> := [];
    for i := 0 to |order|
      invariant |mods| == i && forall j :: 0 <= j < i ==>
        order[j] in packages && mods[j] == EntryFor(packages, order[j]) && Records(packages, order[j], mods[j])
    {
      if order[i] !in packages {
        return Err(InvalidLock);
      }
      EntryRecords(packages, order[i]);
      mods := mods + [EntryFor(packages, order[i])];
    }
    assert mods == LockOf(packages, order);
    var checked := ValidateLock(mods);
    return if checked.Ok? then Ok(mods) else Err(InvalidLock);
  }

  // ------------------------------------------------- valid by construction

  lemma {:induction false} PresentLockedMembers(packages: PackageMap, ds: seq<Dependency>)
    ensures forall l :: l in PresentLocked(packages, ds) ==>
      && l.modId in packages && l.version == packages[l.modId].version
      && l.modId in PresentDependencies(packages, ds)
    decreases |ds|
  {
    if ds != [] {
      var rest := ds[..|ds| - 1];
      PresentLockedMembers(packages, rest);
      forall b | b in PresentDependencies(packages, rest)
        ensures b in PresentDependencies(packages, ds)
      {
        var k :| 0 <= k < |rest| && rest[k].modId == b;
        assert ds[k].modId == b;
      }
      assert ds[|ds| - 1].modId in packages ==> ds[|ds| - 1].modId in PresentDependencies(packages, ds);
    }
  }

  lemma {:induction false} PresentLockedDistinct(packages: PackageMap, ds: seq<Dependency>)
    requires forall i, j :: 0 <= i < j < |ds| ==> ds[i].modId != ds[j].modId
    ensures forall i, j :: 0 <= i < j < |PresentLocked(packages, ds)| ==>
      PresentLocked(packages, ds)[i].modId != PresentLocked(packages, ds)[j].modId
    decreases |ds|
  {
    if ds != [] {
      var rest := ds[..|ds| - 1];
      PresentLockedDistinct(packages, rest);
      PresentLockedMembers(packages, rest);
      forall i | 0 <= i < |PresentLocked(packages, rest)|
        ensures PresentLocked(packages, rest)[i].modId != ds[|ds| - 1].modId
      {
        var l := PresentLocked(packages, rest)[i];
        assert l in PresentLocked(packages, rest);
        var k :| 0 <= k < |rest| && rest[k].modId == l.modId;
        assert ds[k].modId == l.modId;
      }
    }
  }

  /** A validated manifest's entry lists its dependencies once, ascending. */
  lemma EntryDependencies(packages: PackageMap, m: ModId)
    requires m in packages && SoundDependencies(packages[m])
    ensures AscendingDependencies(EntryFor(packages, m).dependencies)
    ensures forall l :: l in EntryFor(packages, m).dependencies ==>
      && l.modId in packages && l.version == packages[l.modId].version
      && l.modId in DependencyGraph(packages)[m]
  {
    var present := PresentLocked(packages, packages[m].dependencies);
    PresentLockedMembers(packages, packages[m].dependencies);
    PresentLockedDistinct(packages, packages[m].dependencies);
    SortStrict(present, LockedDependencyRank);
    SortMembers(present, LockedDependencyRank);
    hide Sort, PresentLocked;
    var sorted := Sort(present, LockedDependencyRank);
    forall i, j | 0 <= i < j < |sorted|
      ensures sorted[i].modId < sorted[j].modId
    {
      assert Before(LockedDependencyRank(sorted[i]), LockedDependencyRank(sorted[j]));
    }
  }

  /** A validated manifest's entry lists its own patches once each. */
  lemma EntryPatches(packages: PackageMap, m: ModId)
    requires m in packages && packages[m].modId == m && SoundPatches(packages[m])
    ensures OwnedPatches(EntryFor(packages, m))
  {
    var ids := PatchIds(packages[m].patches);
    SortStrict(ids, DefinitionRank);
    SortMembers(ids, DefinitionRank);
    hide Sort;
    var sorted := Sort(ids, DefinitionRank);
    forall i | 0 <= i < |sorted|
      ensures sorted[i].modId == m
    {
      assert sorted[i] in ids;
    }
    forall i, j | 0 <= i < j < |sorted|
      ensures sorted[i] != sorted[j]
    {
      assert Before(DefinitionRank(sorted[i]), DefinitionRank(sorted[j]));
    }
  }

  ghost predicate Validated(packages: PackageMap) {
    forall m :: m in packages ==> packages[m].modId == m && ValidPackage(packages[m])
  }

  /** Locks are valid by construction: any dependency-first order of validated packages. */
  lemma BuiltLockIsValid(packages: PackageMap, order: seq<ModId>)
    requires Validated(packages)
    requires Topological(DependencyGraph(packages), order)
    ensures forall m :: m in order ==> m in packages
    ensures ValidLock(LockOf(packages, order))
  {
    hide Sort, PresentLocked, PatchIds;
    var mods := LockOf(packages, order);
    forall i | 0 <= i < |mods|
      ensures ValidEntry(mods, i)
    {
      assert order[i] in order;
      EntryDependencies(packages, order[i]);
      EntryPatches(packages, order[i]);
      forall k | 0 <= k < |mods[i].dependencies|
        ensures DependencyFits(mods, i, mods[i].dependencies[k])
      {
        var d := mods[i].dependencies[k];
        assert d in EntryFor(packages, order[i]).dependencies;
        assert d.modId in order[..i];
        var p :| 0 <= p < i && order[p] == d.modId;
        assert mods[p].modId == d.modId && mods[p].version == d.version;
      }
    }
    forall i, j | 0 <= i < j < |mods|
      ensures mods[i].modId != mods[j].modId
    {
      assert order[i] != order[j];
    }
  }

  /** Ordering and then locking validated packages fails only when ordering does. */
  method OrderAndLock(packages: PackageMap) returns (r: Result<(seq<ModId>, seq<LockedMod>), PackageError>)
    requires Validated(packages)
    ensures r.Ok? <==>
      && !Cyclic(DependencyGraph(packages))
      && forall m, k :: m in packages && 0 <= k < |packages[m].dependencies| ==>
           var d := packages[m].dependencies[k];
           if d.modId in packages then d.requirement(packages[d.modId].version) else d.optional
    ensures r.Ok? ==> ValidLock(r.value.1) && |r.value.1| == |packages|
    ensures r.Ok? ==> forall i :: 0 <= i < |r.value.1| ==> r.value.1[i].modId in packages
    ensures r.Err? ==> r.error.MissingDependency? || r.error.IncompatibleDependency? || r.error.DependencyCycle?
  {
    hide Resolved, Cyclic, LexicographicallyAtMost, ValidLock, EntryFor;
    var order := DependencyOrders.DependencyOrder(packages);
    if order.Err? {
      return Err(order.error);
    }
    BuiltLockIsValid(packages, order.value);
    OrderLength(packages, order.value);
    EntryNames(packages, order.value);
    var lock := BuildLock(packages, order.value);
    return Ok((order.value, lock.value));
  }

  lemma EntryNames(packages: PackageMap, order: seq<ModId>)
    requires forall m :: m in order ==> m in packages
    ensures forall i :: 0 <= i < |order| ==> LockOf(packages, order)[i].modId == order[i] && order[i] in packages
  {
    forall i | 0 <= i < |order|
      ensures order[i] in packages
    {
      assert order[i] in order;
    }
  }

  lemma OrderLength(packages: PackageMap, order: seq<ModId>)
    requires Topological(DependencyGraph(packages), order)
    ensures |order| == |packages|
  {
    EmittedCount(order);
    assert Emitted(order) == packages.Keys;
  }
}
