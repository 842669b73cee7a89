/**
 * What patching amounts to, told by the declarations and the patch files alone:
 * when no patch has a fault, and which replacement a definition ends with.
 */
module PatchMeanings {
  import opened Outcomes
  import opened Ordering
  import opened Locks
  import opened Packages
  import opened Patches

  // ---------------------------------------------------------- faultlessness

  /** A patch of a dependency's definition, whose file replaces that definition and nothing else. */
  ghost predicate Clean(packages: PackageMap, baseline: Registry, package: Package, patch: PatchDeclaration) {
    && (exists i :: 0 <= i < |package.dependencies| && package.dependencies[i].modId == patch.targetMod)
    && patch.targetMod in packages && patch.targetVersion(packages[patch.targetMod].version)
    && patch.target in baseline && baseline[patch.target].origin == patch.targetMod
    && patch.file in package.files && package.files[patch.file].Some?
    && var document := package.files[patch.file].value;
       && document.schemaVersion == 1 && document.replacements != []
       && forall i :: 0 <= i < |document.replacements| ==>
            && document.replacements[i].id == patch.target
            && document.replacements[i].kind == baseline[patch.target].definition.kind
  }

  /** The one fault that is not an invalid patch: a file that does not parse. */
  ghost predicate Unparsable(package: Package, patch: PatchDeclaration) {
    patch.file in package.files && package.files[patch.file].None?
  }

  /** Every other fault makes the patch invalid. */
  ghost predicate Blames(fault: PackageError, package: Package, patches: seq<PatchDeclaration>) {
    || fault == InvalidPatch
    || (fault == InvalidData && exists k :: 0 <= k < |patches| && Unparsable(package, patches[k]))
  }

  lemma PatchIsClean(packages: PackageMap, baseline: Registry, package: Package, patch: PatchDeclaration)
    ensures PatchFault(packages, baseline, package, patch).None? <==> Clean(packages, baseline, package, patch)
    ensures var fault := PatchFault(packages, baseline, package, patch);
      fault.Some? ==> Blames(fault.value, package, [patch])
  {
    assert Unparsable(package, patch) ==> Unparsable(package, [patch][0]);
  }

  ghost predicate AllClean(packages: PackageMap, baseline: Registry, package: Package, patches: seq<PatchDeclaration>) {
    forall k :: 0 <= k < |patches| ==> Clean(packages, baseline, package, patches[k])
  }

  lemma {:induction false} PatchesAreClean(
    packages: PackageMap, baseline: Registry, package: Package, patches: seq<PatchDeclaration>)
    ensures FirstPatchFault(packages, baseline, package, patches).None? <==>
      AllClean(packages, baseline, package, patches)
    ensures var fault := FirstPatchFault(packages, baseline, package, patches);
      fault.Some? ==> Blames(fault.value, package, patches)
    decreases |patches|
  {
    if patches != [] {
      PatchesAreClean(packages, baseline, package, patches[..|patches| - 1]);
      PatchIsClean(packages, baseline, package, patches[|patches| - 1]);
      hide PatchFault, Clean, Unparsable;
      var rest := patches[..|patches| - 1];
      if k :| 0 <= k < |rest| && Unparsable(package, rest[k]) {
        assert Unparsable(package, patches[k]);
      }
    }
  }

  lemma SortedPatches(package: Package)
    ensures var sorted := Sort(package.patches, PatchRank);
      && (forall k :: 0 <= k < |sorted| ==> PatchAt(package, sorted[k]))
      && (forall k :: 0 <= k < |package.patches| ==> exists l :: 0 <= l < |sorted| && sorted[l] == package.patches[k])
  {
    var sorted := Sort(package.patches, PatchRank);
    SortCorrect(package.patches, PatchRank);
    hide Sort;
    forall k | 0 <= k < |sorted|
      ensures PatchAt(package, sorted[k])
    {
      assert sorted[k] in multiset(sorted);
    }
    forall k | 0 <= k < |package.patches|
      ensures exists l :: 0 <= l < |sorted| && sorted[l] == package.patches[k]
    {
      assert package.patches[k] in multiset(package.patches);
    }
  }

  ghost predicate PatchAt(package: Package, patch: PatchDeclaration) {
    exists k :: 0 <= k < |package.patches| && package.patches[k] == patch
  }

  /**
   * No patch has a fault exactly when every package of the order is there and
   * each of its patches is clean; any other fault is an invalid patch, or a
   * file that does not parse.
   */
  lemma {:induction false} FaultlessPatches(packages: PackageMap, baseline: Registry, order: seq<ModId>)
    ensures FirstFaultIn(packages, baseline, order).None? <==>
      forall i :: 0 <= i < |order| ==>
        order[i] in packages && AllClean(packages, baseline, packages[order[i]], packages[order[i]].patches)
    ensures var fault := FirstFaultIn(packages, baseline, order);
      fault == Some(InvalidPatch) || fault.None? || exists i ::
        0 <= i < |order| && order[i] in packages
          && Blames(fault.value, packages[order[i]], packages[order[i]].patches)
    decreases |order|
  {
    if order != [] {
      var prefix, m := order[..|order| - 1], order[|order| - 1];
      FaultlessPatches(packages, baseline, prefix);
      if m in packages {
        PackageIsClean(packages, baseline, packages[m]);
      }
      hide FirstPatchFault, AllClean, Blames, Sort;
      assert forall i :: 0 <= i < |prefix| ==> prefix[i] == order[i];
    }
  }

  lemma PackageIsClean(packages: PackageMap, baseline: Registry, package: Package)
    ensures var fault := FirstPatchFault(packages, baseline, package, Sort(package.patches, PatchRank));
      && (fault.None? <==> AllClean(packages, baseline, package, package.patches))
      && (fault.Some? ==> Blames(fault.value, package, package.patches))
  {
    PatchesAreClean(packages, baseline, package, Sort(package.patches, PatchRank));
    SortedPatches(package);
    SortedIsClean(packages, baseline, package, Sort(package.patches, PatchRank));
  }

  lemma SortedIsClean(packages: PackageMap, baseline: Registry, package: Package, sorted: seq<PatchDeclaration>)
    requires forall k :: 0 <= k < |sorted| ==> PatchAt(package, sorted[k])
    requires forall k :: 0 <= k < |package.patches| ==>
      exists l :: 0 <= l < |sorted| && sorted[l] == package.patches[k]
    ensures AllClean(packages, baseline, package, sorted) <==> AllClean(packages, baseline, package, package.patches)
    ensures forall fault :: Blames(fault, package, sorted) ==> Blames(fault, package, package.patches)
  {
    hide Clean, Unparsable;
    if AllClean(packages, baseline, package, sorted) {
      forall k | 0 <= k < |package.patches|
        ensures Clean(packages, baseline, package, package.patches[k])
      {
        var l :| 0 <= l < |sorted| && sorted[l] == package.patches[k];
      }
    }
    if l :| 0 <= l < |sorted| && Unparsable(package, sorted[l]) {
      assert PatchAt(package, sorted[l]);
      var k :| 0 <= k < |package.patches| && package.patches[k] == sorted[l];
      assert Unparsable(package, package.patches[k]);
    }
  }

  // ------------------------------------------------------- the last writer

  /** Operation `o` of a patch replaces the definition named `id`, by `d`. */
  ghost predicate Writes(package: Package, patch: PatchDeclaration, o: nat, id: DefinitionId, d: Definition) {
    && patch.file in package.files && package.files[patch.file].Some?
    && o < |package.files[patch.file].value.replacements|
    && package.files[patch.file].value.replacements[o] == d && d.id == id
  }

  /** Patch identifiers are ordered by `order`, then by the owning mod. */
  predicate IdBefore(a: DefinitionId, b: DefinitionId) {
    a.order < b.order || (a.order == b.order && a.modId < b.modId)
  }

  /** Nothing else in these patches writes `id` after operation `o` of `patch`. */
  ghost predicate LastIn(
    package: Package, patches: seq<PatchDeclaration>, patch: PatchDeclaration, o: nat, id: DefinitionId)
  {
    forall k, o': nat, d :: 0 <= k < |patches| && Writes(package, patches[k], o', id, d) ==>
      || (patches[k].id == patch.id && o' <= o)
      || IdBefore(patches[k].id, patch.id)
  }

  ghost predicate WritesLast(
    package: Package, patches: seq<PatchDeclaration>, k: nat, o: nat, id: DefinitionId, d: Definition)
  {
    k < |patches| && Writes(package, patches[k], o, id, d) && LastIn(package, patches, patches[k], o, id)
  }

  ghost predicate WritesNothing(package: Package, patches: seq<PatchDeclaration>, id: DefinitionId) {
    forall k, o: nat, d :: 0 <= k < |patches| ==> !Writes(package, patches[k], o, id, d)
  }

  lemma {:induction false} LatestOfBoth(d: Definition, a: seq<Definition>, b: seq<Definition>)
    ensures Latest(d, a + b) == Latest(Latest(d, a), b)
    decreases |b|
  {
    if b == [] {
      assert a + b == a;
    } else {
      assert (a + b)[..|a + b| - 1] == a + b[..|b| - 1];
      LatestOfBoth(d, a, b[..|b| - 1]);
      LatestKeepsId(d, a);
    }
  }

  ghost predicate WritesUpTo(package: Package, patch: PatchDeclaration, o: nat, id: DefinitionId, d: Definition) {
    Writes(package, patch, o, id, d) && forall o': nat, y :: Writes(package, patch, o', id, y) ==> o' <= o
  }

  /** What one patch makes of a definition. */
  lemma LatestOfPatch(package: Package, patch: PatchDeclaration, d: Definition)
    ensures var x := Latest(d, Replacements(package, patch));
      || (x == d && forall o: nat, y :: !Writes(package, patch, o, d.id, y))
      || (exists o: nat :: WritesUpTo(package, patch, o, d.id, x))
  {
    var log := Replacements(package, patch);
    var x := Latest(d, log);
    if i :| 0 <= i < |log| && LastNaming(log, d.id, i) {
      LatestIsLast(d, log, i);
      assert WritesUpTo(package, patch, i, d.id, x);
    } else {
      NoneNaming(log, d.id);
      LatestIsLast(d, log, 0);
    }
  }

  lemma {:induction false} NoneNaming(log: seq<Definition>, id: DefinitionId)
    requires forall i :: 0 <= i < |log| ==> !LastNaming(log, id, i)
    ensures forall j :: 0 <= j < |log| ==> log[j].id != id
    decreases |log|
  {
    if log != [] {
      var rest := log[..|log| - 1];
      assert !LastNaming(log, id, |log| - 1);
      forall i | 0 <= i < |rest|
        ensures !LastNaming(rest, id, i)
      {
        assert LastNaming(rest, id, i) ==> LastNaming(log, id, i);
      }
      NoneNaming(rest, id);
      forall j | 0 <= j < |log|
        ensures log[j].id != id
      {
        assert j < |rest| ==> rest[j] == log[j];
      }
    }
  }

  /** What one package makes of a definition, its patches being sorted. */
  lemma {:induction false} LatestOfPatches(package: Package, patches: seq<PatchDeclaration>, d: Definition)
    requires forall j, k :: 0 <= j < k < |patches| ==> IdBefore(patches[j].id, patches[k].id)
    ensures var x := Latest(d, PatchLog(package, patches));
      || (x == d && WritesNothing(package, patches, d.id))
      || (exists k: nat, o: nat :: WritesLast(package, patches, k, o, d.id, x))
    decreases |patches|
  {
    if patches != [] {
      var rest, last := patches[..|patches| - 1], patches[|patches| - 1];
      var y := Latest(d, PatchLog(package, rest));
      LatestOfPatches(package, rest, d);
      LatestOfBoth(d, PatchLog(package, rest), Replacements(package, last));
      LatestKeepsId(d, PatchLog(package, rest));
      LatestOfPatch(package, last, y);
      hide Latest, PatchLog, Replacements, Writes, WritesLast, WritesNothing;
      OnePatchMore(package, patches, d, y, Latest(d, PatchLog(package, patches)));
    }
  }

  lemma OnePatchMore(package: Package, patches: seq<PatchDeclaration>, d: Definition, y: Definition, x: Definition)
    requires patches != [] && y.id == d.id
    requires forall j, k :: 0 <= j < k < |patches| ==> IdBefore(patches[j].id, patches[k].id)
    requires var rest := patches[..|patches| - 1];
      || (y == d && WritesNothing(package, rest, d.id))
      || (exists k: nat, o: nat :: WritesLast(package, rest, k, o, d.id, y))
    requires var last := patches[|patches| - 1];
      || (x == y && forall o: nat, z :: !Writes(package, last, o, d.id, z))
      || (exists o: nat :: WritesUpTo(package, last, o, d.id, x))
    ensures (x == d && WritesNothing(package, patches, d.id))
      || (exists k: nat, o: nat :: WritesLast(package, patches, k, o, d.id, x))
  {
    hide Writes;
    var rest, last := patches[..|patches| - 1], patches[|patches| - 1];
    if o: nat :| WritesUpTo(package, last, o, d.id, x) {
      assert WritesLast(package, patches, |patches| - 1, o, d.id, x);
    } else if k: nat, o: nat :| WritesLast(package, rest, k, o, d.id, y) {
      assert LastIn(package, patches, patches[k], o, d.id) by {
        forall l, o': nat, z | 0 <= l < |patches| && Writes(package, patches[l], o', d.id, z)
          ensures (patches[l].id == patches[k].id && o' <= o) || IdBefore(patches[l].id, patches[k].id)
        {
          assert l < |rest| && Writes(package, rest[l], o', d.id, z);
        }
      }
      assert WritesLast(package, patches, k, o, d.id, x);
    } else {
      forall k, o: nat, z | 0 <= k < |patches|
        ensures !Writes(package, patches[k], o, d.id, z)
      {
        assert k < |rest| ==> !Writes(package, rest[k], o, d.id, z);
      }
    }
  }

  /** The same for the patches as they are declared. */
  lemma LatestOfPackage(package: Package, d: Definition)
    requires SoundPatches(package)
    ensures var x := Latest(d, PatchLog(package, Sort(package.patches, PatchRank)));
      || (x == d && WritesNothing(package, package.patches, d.id))
      || (exists k: nat, o: nat :: WritesLast(package, package.patches, k, o, d.id, x))
  {
    var sorted := Sort(package.patches, PatchRank);
    SortStrict(package.patches, PatchRank);
    SortedPatches(package);
    hide Sort, Latest, PatchLog, Writes;
    forall j, k | 0 <= j < k < |sorted|
      ensures IdBefore(sorted[j].id, sorted[k].id)
    {
      assert Before(PatchRank(sorted[j]), PatchRank(sorted[k]));
    }
    LatestOfPatches(package, sorted, d);
    var x := Latest(d, PatchLog(package, sorted));
    if l: nat, o: nat :| WritesLast(package, sorted, l, o, d.id, x) {
      assert PatchAt(package, sorted[l]);
      var k: nat :| k < |package.patches| && package.patches[k] == sorted[l];
      assert LastIn(package, package.patches, package.patches[k], o, d.id) by {
        SortedLast(package, sorted, sorted[l], o, d.id);
      }
      assert WritesLast(package, package.patches, k, o, d.id, x);
    } else {
      forall k, o: nat, z | 0 <= k < |package.patches|
        ensures !Writes(package, package.patches[k], o, d.id, z)
      {
        var l :| 0 <= l < |sorted| && sorted[l] == package.patches[k];
      }
    }
  }

  lemma SortedLast(
    package: Package, sorted: seq<PatchDeclaration>, patch: PatchDeclaration, o: nat, id: DefinitionId)
    requires LastIn(package, sorted, patch, o, id)
    requires forall k :: 0 <= k < |package.patches| ==>
      exists l :: 0 <= l < |sorted| && sorted[l] == package.patches[k]
    ensures LastIn(package, package.patches, patch, o, id)
  {
    hide Writes;
    forall k, o': nat, d | 0 <= k < |package.patches| && Writes(package, package.patches[k], o', id, d)
      ensures (package.patches[k].id == patch.id && o' <= o) || IdBefore(package.patches[k].id, patch.id)
    {
      var l :| 0 <= l < |sorted| && sorted[l] == package.patches[k];
    }
  }

  /** Package `order[i]` writes `id` last among the packages from it on, with this operation of this patch. */
  ghost predicate LastWriter(
    packages: PackageMap, order: seq<ModId>, i: nat, k: nat, o: nat, id: DefinitionId, d: Definition)
  {
    && i < |order| && order[i] in packages
    && WritesLast(packages[order[i]], packages[order[i]].patches, k, o, id, d)
    && (forall j :: i < j < |order| && order[j] in packages ==>
          WritesNothing(packages[order[j]], packages[order[j]].patches, id))
  }

  /**
   * The definition a place ends with: the one that the last package in order
   * writing its identifier writes last, by patch identifier and then by
   * operation; or the original if no patch writes it.
   */
  lemma {:induction false} LatestIsLastWriter(packages: PackageMap, order: seq<ModId>, d: Definition)
    requires forall m :: m in order ==> m in packages && SoundPatches(packages[m])
    ensures var x := Latest(d, ReplacementLog(packages, order));
      || (x == d && NoWriter(packages, order, d.id))
      || (exists i: nat, k: nat, o: nat :: LastWriter(packages, order, i, k, o, d.id, x))
    decreases |order|
  {
    if order != [] {
      var prefix, m := order[..|order| - 1], order[|order| - 1];
      assert forall n :: n in prefix ==> n in order;
      assert m in order;
      var before, own := ReplacementLog(packages, prefix), PatchLog(packages[m], Sort(packages[m].patches, PatchRank));
      assert ReplacementLog(packages, order) == before + own;
      hide Latest, PatchLog, Sort, WritesLast, WritesNothing, ReplacementLog, SoundPatches, NoWriter, LastWriter;
      var y := Latest(d, before);
      LatestIsLastWriter(packages, prefix, d);
      LatestOfBoth(d, before, own);
      LatestKeepsId(d, before);
      LatestOfPackage(packages[m], y);
      OnePackageMore(packages, order, d, y, Latest(y, own));
    }
  }

  ghost predicate NoWriter(packages: PackageMap, order: seq<ModId>, id: DefinitionId) {
    forall i :: 0 <= i < |order| && order[i] in packages ==>
      WritesNothing(packages[order[i]], packages[order[i]].patches, id)
  }

  lemma OnePackageMore(packages: PackageMap, order: seq<ModId>, d: Definition, y: Definition, x: Definition)
    requires order != [] && y.id == d.id && order[|order| - 1] in packages
    requires var prefix := order[..|order| - 1];
      || (y == d && NoWriter(packages, prefix, d.id))
      || (exists i: nat, k: nat, o: nat :: LastWriter(packages, prefix, i, k, o, d.id, y))
    requires var own := packages[order[|order| - 1]];
      || (x == y && WritesNothing(own, own.patches, d.id))
      || (exists k: nat, o: nat :: WritesLast(own, own.patches, k, o, d.id, x))
    ensures (x == d && NoWriter(packages, order, d.id))
      || (exists i: nat, k: nat, o: nat :: LastWriter(packages, order, i, k, o, d.id, x))
  {
    hide WritesLast, WritesNothing;
    var prefix, own := order[..|order| - 1], packages[order[|order| - 1]];
    assert forall i :: 0 <= i < |prefix| ==> prefix[i] == order[i];
    if k: nat, o: nat :| WritesLast(own, own.patches, k, o, d.id, x) {
      assert LastWriter(packages, order, |order| - 1, k, o, d.id, x);
    } else if i: nat, k: nat, o: nat :| LastWriter(packages, prefix, i, k, o, d.id, y) {
      assert LastWriter(packages, order, i, k, o, d.id, x);
    }
  }
}
