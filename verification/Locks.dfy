/** World and mod locks: validation, and splitting a full lock for a save. */
module Locks {
  import opened Outcomes
  import opened Ordering

  type ModId = nat
  type Version = nat

  /** A definition identifier, compared by `order` first; it names its owning mod. */
  datatype DefinitionId = DefinitionId(order: nat, modId: ModId)

  function DefinitionRank(id: DefinitionId): Rank {
    (id.order, id.modId)
  }

  datatype SourceKind = Builtin | Directory

  datatype LockedDependency = LockedDependency(modId: ModId, version: Version, optional: bool)

  datatype LockedMod = LockedMod(
    modId: ModId, version: Version, contentHash: nat, manifestSchema: nat, contentSchema: nat,
    sourceKind: SourceKind, dependencies: seq<LockedDependency>, appliedPatches: seq<DefinitionId>)

  datatype WorldLock = WorldLock(
    worldId: ModId, version: Version, contentHash: nat, manifestSchema: nat, contentSchema: nat)

  datatype LockError =
    | DuplicateMod
    | SchemaVersion
    | DependencyOrder
    | DependencyVersion
    | DependencyTopology
    | RequiredDependency
    | AppliedPatch

  const WORLD_MANIFEST_SCHEMA_V1: nat := 1

  predicate ValidWorldLock(lock: WorldLock) {
    lock.manifestSchema != 0 && lock.contentSchema != 0
  }

  // ------------------------------------------------------------ validity

  ghost predicate UniqueMods(mods: seq<LockedMod>) {
    forall i, j :: 0 <= i < j < |mods| ==> mods[i].modId != mods[j].modId
  }

  ghost predicate Locked(mods: seq<LockedMod>, modId: ModId) {
    exists i :: 0 <= i < |mods| && mods[i].modId == modId
  }

  /** A dependency names an earlier mod at its exact version, or an absent optional one. */
  ghost predicate DependencyFits(mods: seq<LockedMod>, index: nat, d: LockedDependency)
    requires index <= |mods|
  {
    if Locked(mods, d.modId) then
      exists p :: 0 <= p < index && mods[p].modId == d.modId && mods[p].version == d.version
    else
      d.optional
  }

  ghost predicate AscendingDependencies(ds: seq<LockedDependency>) {
    forall i, j :: 0 <= i < j < |ds| ==> ds[i].modId < ds[j].modId
  }

  ghost predicate DependenciesFit(mods: seq<LockedMod>, index: nat)
    requires index < |mods|
  {
    var ds := mods[index].dependencies;
    && AscendingDependencies(ds)
    && (forall k :: 0 <= k < |ds| ==> DependencyFits(mods, index, ds[k]))
  }

  ghost predicate OwnedPatches(m: LockedMod) {
    && (forall i :: 0 <= i < |m.appliedPatches| ==> m.appliedPatches[i].modId == m.modId)
    && (forall i, j :: 0 <= i < j < |m.appliedPatches| ==> m.appliedPatches[i] != m.appliedPatches[j])
  }

  ghost predicate ValidEntry(mods: seq<LockedMod>, index: nat)
    requires index < |mods|
  {
    var m := mods[index];
    && m.manifestSchema != 0 && m.contentSchema != 0
    && DependenciesFit(mods, index)
    && OwnedPatches(m)
  }

  /** What a mod lock means: unique mods in an order that installs dependencies first. */
  ghost predicate ValidLock(mods: seq<LockedMod>) {
    && UniqueMods(mods)
    && (forall i :: 0 <= i < |mods| ==> ValidEntry(mods, i))
  }

  ghost predicate Names(mods: seq<LockedMod>, n: nat, d: LockedDependency)
    requires n <= |mods|
  {
    exists p :: 0 <= p < n && mods[p].modId == d.modId && mods[p].version == d.version
  }

  /** A lock is valid exactly with these mods, schemas, dependencies and patches. */
  lemma ValidLockExactly(mods: seq<LockedMod>)
    ensures ValidLock(mods) <==>
      && (forall i, j :: 0 <= i < j < |mods| ==> mods[i].modId != mods[j].modId)
      && (forall i :: 0 <= i < |mods| ==> mods[i].manifestSchema != 0 && mods[i].contentSchema != 0)
      && (forall i, j, k :: 0 <= i < |mods| && 0 <= j < k < |mods[i].dependencies| ==>
            mods[i].dependencies[j].modId < mods[i].dependencies[k].modId)
      && (forall i, k :: 0 <= i < |mods| && 0 <= k < |mods[i].dependencies| ==>
            var d := mods[i].dependencies[k];
            Names(mods, i, d) || (d.optional && forall p :: 0 <= p < |mods| ==> mods[p].modId != d.modId))
      && (forall i, k :: 0 <= i < |mods| && 0 <= k < |mods[i].appliedPatches| ==>
            mods[i].appliedPatches[k].modId == mods[i].modId)
      && (forall i, j, k :: 0 <= i < |mods| && 0 <= j < k < |mods[i].appliedPatches| ==>
            mods[i].appliedPatches[j] != mods[i].appliedPatches[k])
  {
    forall i, k | 0 <= i < |mods| && 0 <= k < |mods[i].dependencies|
      ensures var d := mods[i].dependencies[k];
        DependencyFits(mods, i, d) <==>
          Names(mods, i, d) || (d.optional && forall p :: 0 <= p < |mods| ==> mods[p].modId != d.modId)
    {
      FitsExactly(mods, i, mods[i].dependencies[k]);
    }
    hide DependencyFits, Names;
    forall i | 0 <= i < |mods|
      ensures ValidEntry(mods, i) <==>
        && mods[i].manifestSchema != 0 && mods[i].contentSchema != 0
        && AscendingDependencies(mods[i].dependencies) && OwnedPatches(mods[i])
        && (forall k :: 0 <= k < |mods[i].dependencies| ==> DependencyFits(mods, i, mods[i].dependencies[k]))
    {}
  }

  lemma FitsExactly(mods: seq<LockedMod>, i: nat, d: LockedDependency)
    requires i <= |mods|
    ensures DependencyFits(mods, i, d) <==>
      Names(mods, i, d) || (d.optional && forall p :: 0 <= p < |mods| ==> mods[p].modId != d.modId)
  {}

  /** `ModLock::validate`. */
  method ValidateLock(mods: seq<LockedMod>) returns (r: Result<(), LockError>)
    ensures r.Ok? <==> ValidLock(mods)
    ensures r == Err(DuplicateMod) <==> !UniqueMods(mods)
  {
    var positions: map<ModId, nat> := map[];
    for i := 0 to |mods|
      invariant forall j :: 0 <= j < i ==> mods[j].modId in positions && positions[mods[j].modId] == j
      invariant forall id :: id in positions ==> positions[id] < i && mods[positions[id]].modId == id
    {
      if mods[i].modId in positions {
        assert mods[positions[mods[i].modId]].modId == mods[i].modId;
        return Err(DuplicateMod);
      }
      positions := positions[mods[i].modId := i];
    }
    assert UniqueMods(mods);
    for i := 0 to |mods|
      invariant forall j :: 0 <= j < i ==> ValidEntry(mods, j)
    {
      var m := mods[i];
      if m.manifestSchema == 0 || m.contentSchema == 0 {
        assert !ValidEntry(mods, i);
        return Err(SchemaVersion);
      }
      var fault := CheckDependencies(mods, i, positions);
      if fault.Some? {
        assert !ValidEntry(mods, i);
        return Err(fault.value);
      }
      var patches: set<DefinitionId> := {};
      for k := 0 to |m.appliedPatches|
        invariant patches == set p | p in m.appliedPatches[..k]
        invariant forall a :: 0 <= a < k ==> m.appliedPatches[a].modId == m.modId
        invariant forall a, b :: 0 <= a < b < k ==> m.appliedPatches[a] != m.appliedPatches[b]
      {
        var patch := m.appliedPatches[k];
        if patch.modId != m.modId || patch in patches {
          assert !OwnedPatches(m);
          assert !ValidEntry(mods, i);
          return Err(AppliedPatch);
        }
        patches := patches + {patch};
      }
      assert ValidEntry(mods, i);
    }
    return Ok(());
  }

  method CheckDependencies(mods: seq<LockedMod>, index: nat, positions: map<ModId, nat>)
    returns (fault: Option<LockError>)
    requires index < |mods| && UniqueMods(mods)
    requires forall j :: 0 <= j < |mods| ==> mods[j].modId in positions && positions[mods[j].modId] == j
    requires forall id :: id in positions ==> positions[id] < |mods| && mods[positions[id]].modId == id
    ensures fault.None? <==> DependenciesFit(mods, index)
    ensures fault != Some(DuplicateMod)
  {
    var ds := mods[index].dependencies;
    var previous: Option<ModId> := None;
    for k := 0 to |ds|
      invariant previous == if k == 0 then None else Some(ds[k - 1].modId)
      invariant forall a, b :: 0 <= a < b < k ==> ds[a].modId < ds[b].modId
      invariant forall a :: 0 <= a < k ==> DependencyFits(mods, index, ds[a])
    {
      var d := ds[k];
      if previous.Some? && previous.value >= d.modId {
        assert ds[k - 1].modId >= ds[k].modId;
        return Some(DependencyOrder);
      }
      previous := Some(d.modId);
      assert Locked(mods, d.modId) <==> d.modId in positions;
      if d.modId in positions {
        if positions[d.modId] < index {
          if mods[positions[d.modId]].version != d.version {
            assert !DependencyFits(mods, index, ds[k]);
            return Some(DependencyVersion);
          }
        } else {
          assert !DependencyFits(mods, index, ds[k]);
          return Some(DependencyTopology);
        }
      } else if !d.optional {
        assert !DependencyFits(mods, index, ds[k]);
        return Some(RequiredDependency);
      }
    }
    return None;
  }

  // ------------------------------------------------------------ splitting

  function WithoutExcluded(ds: seq<LockedDependency>, excluded: set<ModId>): (r: seq<LockedDependency>)
    ensures forall d :: d in r <==> d in ds && d.modId !in excluded
  {
    if ds == [] then []
    else if ds[0].modId in excluded then WithoutExcluded(ds[1..], excluded)
    else [ds[0]] + WithoutExcluded(ds[1..], excluded)
  }

  lemma LeastFirst(first: LockedDependency, rest: seq<LockedDependency>)
    requires AscendingDependencies(rest) && forall i :: 0 <= i < |rest| ==> first.modId < rest[i].modId
    ensures AscendingDependencies([first] + rest)
  {
    var all := [first] + rest;
    assert forall i :: 0 < i < |all| ==> all[i] == rest[i - 1];
  }

  lemma {:induction false} WithoutExcludedAscends(ds: seq<LockedDependency>, excluded: set<ModId>)
    requires AscendingDependencies(ds)
    ensures AscendingDependencies(WithoutExcluded(ds, excluded))
  {
    if ds != [] {
      var rest := ds[1..];
      var kept := WithoutExcluded(rest, excluded);
      assert forall i :: 0 <= i < |rest| ==> rest[i] == ds[i + 1];
      WithoutExcludedAscends(rest, excluded);
      forall i | 0 <= i < |kept|
        ensures ds[0].modId < kept[i].modId
      {
        assert kept[i] in rest;
      }
      hide AscendingDependencies;
      LeastFirst(ds[0], kept);
    }
  }

  /** The positions of the first `n` entries that stay in the mod lock, in order. */
  function KeptIndices(mods: seq<LockedMod>, excluded: set<ModId>, n: nat): (r: seq<nat>)
    requires n <= |mods|
    ensures forall i, j :: 0 <= i < j < |r| ==> r[i] < r[j]
    ensures forall i :: i in r <==> 0 <= i < n && mods[i].modId !in excluded
  {
    if n == 0 then []
    else if mods[n - 1].modId in excluded then KeptIndices(mods, excluded, n - 1)
    else
      var prior := KeptIndices(mods, excluded, n - 1);
      assert forall i :: 0 <= i < |prior| ==> prior[i] in prior;
      prior + [n - 1]
  }

  function Strip(m: LockedMod, excluded: set<ModId>): LockedMod {
    m.(dependencies := WithoutExcluded(m.dependencies, excluded))
  }

  /** The mod lock left after removing the world and the engine namespaces. */
  function KeptMods(mods: seq<LockedMod>, excluded: set<ModId>, n: nat): (r: seq<LockedMod>)
    requires n <= |mods|
    ensures |r| == |KeptIndices(mods, excluded, n)|
    ensures forall j :: 0 <= j < |r| ==>
      && KeptIndices(mods, excluded, n)[j] in KeptIndices(mods, excluded, n)
      && r[j] == Strip(mods[KeptIndices(mods, excluded, n)[j]], excluded)
  {
    var at := KeptIndices(mods, excluded, n);
    seq(|at|, j requires 0 <= j < |at| => assert at[j] in at; Strip(mods[at[j]], excluded))
  }

  lemma KeptStep(mods: seq<LockedMod>, excluded: set<ModId>, n: nat)
    requires n < |mods|
    ensures KeptMods(mods, excluded, n + 1)
         == if mods[n].modId in excluded then KeptMods(mods, excluded, n)
            else KeptMods(mods, excluded, n) + [Strip(mods[n], excluded)]
  {}

  lemma KeptNone(mods: seq<LockedMod>, excluded: set<ModId>)
    ensures KeptMods(mods, excluded, 0) == []
  {}

  ghost predicate Clean(m: LockedMod) {
    m.dependencies == [] && m.appliedPatches == []
  }

  /** Entry `at` is the only world entry among the first `n`, and it is clean. */
  ghost predicate WorldEntryAt(mods: seq<LockedMod>, n: nat, worldId: ModId, at: nat)
    requires n <= |mods|
  {
    && at < n && mods[at].modId == worldId && Clean(mods[at])
    && (forall i :: 0 <= i < n && i != at ==> mods[i].modId != worldId)
  }

  ghost predicate CleanWorldEntry(mods: seq<LockedMod>, worldId: ModId, at: nat) {
    WorldEntryAt(mods, |mods|, worldId, at)
  }

  function WorldLockOf(m: LockedMod): WorldLock {
    WorldLock(m.modId, m.version, m.contentHash, WORLD_MANIFEST_SCHEMA_V1, m.contentSchema)
  }

  /** What `split_world_lock` returns for a full lock whose world entry is `at`. */
  ghost predicate SplitsAs(
    full: seq<LockedMod>, worldId: ModId, engineNamespaces: set<ModId>, at: nat,
    split: (WorldLock, seq<LockedMod>))
  {
    && CleanWorldEntry(full, worldId, at)
    && split == (WorldLockOf(full[at]), KeptMods(full, engineNamespaces + {worldId}, |full|))
    && ValidWorldLock(split.0)
    && ValidLock(split.1)
  }

  /** Entry `j` of the remaining lock is entry `i` of the full one, without what it depended on that is gone. */
  ghost predicate Remains(locked: LockedMod, kept: LockedMod, worldId: ModId, engineNamespaces: set<ModId>) {
    && locked.modId != worldId && locked.modId !in engineNamespaces
    && kept.modId == locked.modId && kept.version == locked.version && kept.contentHash == locked.contentHash
    && kept.manifestSchema == locked.manifestSchema && kept.contentSchema == locked.contentSchema
    && kept.sourceKind == locked.sourceKind && kept.appliedPatches == locked.appliedPatches
    && (forall d :: d in kept.dependencies <==>
          d in locked.dependencies && d.modId != worldId && d.modId !in engineNamespaces)
  }

  /** The world lock is the world entry's, and the mod lock all other entries but the engine's, in their order. */
  lemma SplitKeepsEntries(
    full: seq<LockedMod>, worldId: ModId, engineNamespaces: set<ModId>, at: nat, split: (WorldLock, seq<LockedMod>))
    returns (positions: seq<nat>)
    requires SplitsAs(full, worldId, engineNamespaces, at, split)
    ensures split.0.worldId == worldId == full[at].modId && split.0.version == full[at].version
      && split.0.contentHash == full[at].contentHash && split.0.contentSchema == full[at].contentSchema
      && split.0.manifestSchema == 1
    ensures |positions| == |split.1| && forall j, k :: 0 <= j < k < |positions| ==> positions[j] < positions[k]
    ensures forall i :: i in positions <==>
      0 <= i < |full| && full[i].modId != worldId && full[i].modId !in engineNamespaces
    ensures forall j :: 0 <= j < |positions| ==>
      positions[j] < |full| && Remains(full[positions[j]], split.1[j], worldId, engineNamespaces)
  {
    positions := KeptIndices(full, engineNamespaces + {worldId}, |full|);
    assert forall j :: 0 <= j < |positions| ==> positions[j] in positions;
  }

  /** `split_world_lock`. */
  method SplitWorldLock(full: seq<LockedMod>, worldId: ModId, engineNamespaces: set<ModId>)
    returns (r: Result<(WorldLock, seq<LockedMod>), ()>)
    ensures r.Ok? ==> exists at: nat :: SplitsAs(full, worldId, engineNamespaces, at, r.value)
    ensures r.Err? ==> forall at: nat, split :: !SplitsAs(full, worldId, engineNamespaces, at, split)
  {
    var world, mods := Partition(full, worldId, engineNamespaces);
    if world.None? || !ValidWorldLock(world.value) {
      return Err(());
    }
    var checked := ValidateLock(mods);
    if checked.Err? {
      return Err(());
    }
    ghost var at: nat :| CleanWorldEntry(full, worldId, at) && world.value == WorldLockOf(full[at]);
    assert SplitsAs(full, worldId, engineNamespaces, at, (world.value, mods));
    return Ok((world.value, mods));
  }

  /** The loop of `split_world_lock`: `None` when there is not exactly one clean world entry. */
  method Partition(full: seq<LockedMod>, worldId: ModId, engineNamespaces: set<ModId>)
    returns (world: Option<WorldLock>, mods: seq<LockedMod>)
    ensures world.Some? ==>
      && mods == KeptMods(full, engineNamespaces + {worldId}, |full|)
      && exists at: nat :: CleanWorldEntry(full, worldId, at) && world.value == WorldLockOf(full[at])
    ensures world.Some? ==>
      forall at: nat :: CleanWorldEntry(full, worldId, at) ==> world.value == WorldLockOf(full[at])
    ensures world.None? ==> forall at: nat :: !CleanWorldEntry(full, worldId, at)
  {
    hide KeptMods, KeptIndices, WithoutExcluded, ValidLock;
    world, mods := None, [];
    ghost var at: nat := 0;
    KeptNone(full, engineNamespaces + {worldId});
    var excluded := engineNamespaces + {worldId};
    for i := 0 to |full|
      invariant mods == KeptMods(full, excluded, i)
      invariant world.None? ==> forall j :: 0 <= j < i ==> full[j].modId != worldId
      invariant world.Some? ==> WorldEntryAt(full, i, worldId, at) && world.value == WorldLockOf(full[at])
    {
      hide CleanWorldEntry;
      var locked := full[i];
      KeptStep(full, excluded, i);
      if locked.modId == worldId {
        if world.Some? || locked.dependencies != [] || locked.appliedPatches != [] {
          NoCleanEntry(full, worldId, i, at);
          return None, [];
        }
        world := Some(WorldLockOf(locked));
        at := i;
      } else if locked.modId !in engineNamespaces {
        mods := mods + [Strip(locked, excluded)];
      }
    }
    forall a: nat
      ensures CleanWorldEntry(full, worldId, a) ==> world.Some? && a == at
    {}
  }

  lemma NoCleanEntry(full: seq<LockedMod>, worldId: ModId, i: nat, earlier: nat)
    requires i < |full| && full[i].modId == worldId
    requires !Clean(full[i]) || (earlier < i && full[earlier].modId == worldId)
    ensures forall a: nat :: !CleanWorldEntry(full, worldId, a)
  {}

  /**
   * Splitting a valid full lock keeps validity: what remains installs
   * dependencies first at their exact versions, in the original order.
   */
  lemma SplitKeepsValidity(mods: seq<LockedMod>, excluded: set<ModId>)
    requires ValidLock(mods)
    ensures ValidLock(KeptMods(mods, excluded, |mods|))
  {
    var at := KeptIndices(mods, excluded, |mods|);
    var kept := KeptMods(mods, excluded, |mods|);
    forall i, j | 0 <= i < j < |kept|
      ensures kept[i].modId != kept[j].modId
    {
      assert at[i] in at && at[j] in at;
    }
    forall j | 0 <= j < |kept|
      ensures ValidEntry(kept, j)
    {
      assert at[j] in at;
      var m := mods[at[j]];
      assert ValidEntry(mods, at[j]);
      WithoutExcludedAscends(m.dependencies, excluded);
      forall k | 0 <= k < |kept[j].dependencies|
        ensures DependencyFits(kept, j, kept[j].dependencies[k])
      {
        var d := kept[j].dependencies[k];
        assert d in m.dependencies && d.modId !in excluded;
        var o :| 0 <= o < |m.dependencies| && m.dependencies[o] == d;
        assert DependencyFits(mods, at[j], m.dependencies[o]);
        KeptDependencyFits(mods, excluded, j, d);
      }
    }
  }

  /** Keeping entries at ascending positions keeps what an entry's dependency fits to. */
  lemma SelectedFits(
    mods: seq<LockedMod>, at: seq<nat>, kept: seq<LockedMod>, j: nat, d: LockedDependency)
    requires |kept| == |at| && j < |at| && forall q :: 0 <= q < |at| ==> at[q] < |mods|
    requires forall q :: 0 <= q < |at| ==> kept[q].modId == mods[at[q]].modId && kept[q].version == mods[at[q]].version
    requires forall p, q :: 0 <= p < q < |at| ==> at[p] < at[q]
    requires forall p :: 0 <= p < |mods| && mods[p].modId == d.modId ==> p in at
    requires DependencyFits(mods, at[j], d)
    ensures DependencyFits(kept, j, d)
  {
    if Locked(mods, d.modId) {
      var p :| 0 <= p < at[j] && mods[p].modId == d.modId && mods[p].version == d.version;
      var q :| 0 <= q < |at| && at[q] == p;
      assert kept[q].modId == d.modId && kept[q].version == d.version;
      assert q < j;
    } else {
      forall q | 0 <= q < |kept|
        ensures kept[q].modId != d.modId
      {
        assert mods[at[q]].modId != d.modId;
      }
    }
  }

  lemma KeptDependencyFits(mods: seq<LockedMod>, excluded: set<ModId>, j: nat, d: LockedDependency)
    requires j < |KeptIndices(mods, excluded, |mods|)|
    requires KeptIndices(mods, excluded, |mods|)[j] < |mods|
    requires d.modId !in excluded
    requires DependencyFits(mods, KeptIndices(mods, excluded, |mods|)[j], d)
    ensures DependencyFits(KeptMods(mods, excluded, |mods|), j, d)
  {
    hide KeptMods, KeptIndices, WithoutExcluded, DependencyFits;
    var at := KeptIndices(mods, excluded, |mods|);
    var kept := KeptMods(mods, excluded, |mods|);
    assert forall q :: 0 <= q < |at| ==> at[q] in at;
    assert forall q :: 0 <= q < |kept| ==> kept[q].modId == mods[at[q]].modId && kept[q].version == mods[at[q]].version;
    hide Strip;
    SelectedFits(mods, at, kept, j, d);
  }

  /** A valid full lock with a clean world entry always splits. */
  lemma ValidLockSplits(mods: seq<LockedMod>, worldId: ModId, engineNamespaces: set<ModId>, at: nat)
    requires ValidLock(mods) && CleanWorldEntry(mods, worldId, at)
    ensures SplitsAs(mods, worldId, engineNamespaces, at,
      (WorldLockOf(mods[at]), KeptMods(mods, engineNamespaces + {worldId}, |mods|)))
  {
    assert ValidEntry(mods, at);
    SplitKeepsValidity(mods, engineNamespaces + {worldId});
  }
}
