/** Applying patches to the definitions of a compiled set of packages. */
module Patches {
  import opened Outcomes
  import opened Ordering
  import opened Graphs
  import opened Locks
  import opened Packages
  import RuleCycles

  /** Each package's documents, a document being a list of definitions. */
  type Units = map<ModId, seq<seq<Definition>>>

  datatype Place = Place(modId: ModId, document: nat, index: nat)

  predicate Has(units: Units, p: Place) {
    p.modId in units && p.document < |units[p.modId]| && p.index < |units[p.modId][p.document]|
  }

  function DefAt(units: Units, p: Place): Definition
    requires Has(units, p)
  {
    units[p.modId][p.document][p.index]
  }

  /** No identifier is defined at two places. */
  ghost predicate UniqueIds(units: Units) {
    forall p, q :: Has(units, p) && Has(units, q) && DefAt(units, p).id == DefAt(units, q).id ==> p == q
  }

  // ---------------------------------------------------------- the meaning

  /** The last definition of a log carrying the identifier of `d`, or `d`. */
  function Latest(d: Definition, log: seq<Definition>): Definition
    decreases |log|
  {
    if log == [] then d
    else if log[|log| - 1].id == d.id then log[|log| - 1]
    else Latest(d, log[..|log| - 1])
  }

  /** The same places, each holding the latest definition for its identifier. */
  ghost predicate Rewritten(before: Units, after: Units, log: seq<Definition>) {
    && SameShape(before, after)
    && (forall p :: Has(before, p) ==> DefAt(after, p) == Latest(DefAt(before, p), log))
  }

  ghost predicate SameShape(before: Units, after: Units)
    ensures SameShape(before, after) ==> forall p :: Has(before, p) <==> Has(after, p)
  {
    && before.Keys == after.Keys
    && (forall m :: m in before ==> |before[m]| == |after[m]|)
    && (forall m, d :: m in before && 0 <= d < |before[m]| ==> |before[m][d]| == |after[m][d]|)
  }

  lemma {:induction false} LatestKeepsId(d: Definition, log: seq<Definition>)
    ensures Latest(d, log).id == d.id
    decreases |log|
  {
    if log != [] {
      LatestKeepsId(d, log[..|log| - 1]);
    }
  }

  ghost predicate LastNaming(log: seq<Definition>, id: DefinitionId, i: nat) {
    i < |log| && log[i].id == id && forall j :: i < j < |log| ==> log[j].id != id
  }

  /** The latest definition is the log's last one with the identifier, or the original if none has it. */
  lemma {:induction false} LatestIsLast(d: Definition, log: seq<Definition>, i: nat)
    ensures LastNaming(log, d.id, i) ==> Latest(d, log) == log[i]
    ensures (forall j :: 0 <= j < |log| ==> log[j].id != d.id) ==> Latest(d, log) == d
    decreases |log|
  {
    if log != [] && log[|log| - 1].id != d.id {
      var rest := log[..|log| - 1];
      LatestIsLast(d, rest, i);
      assert LastNaming(log, d.id, i) ==> LastNaming(rest, d.id, i) && rest[i] == log[i];
    } else if log != [] {
      assert LastNaming(log, d.id, i) ==> i == |log| - 1;
    }
  }

  lemma RewrittenNothing(units: Units)
    ensures Rewritten(units, units, [])
  {}

  lemma RewrittenMore(a: Units, b: Units, c: Units, log: seq<Definition>, r: Definition)
    requires Rewritten(a, b, log) && Rewritten(b, c, [r])
    ensures Rewritten(a, c, log + [r])
  {
    assert (log + [r])[..|log|] == log;
    forall p | Has(a, p)
      ensures DefAt(c, p) == Latest(DefAt(a, p), log + [r])
    {
      LatestKeepsId(DefAt(a, p), log);
      assert Has(b, p) && DefAt(c, p) == Latest(DefAt(b, p), [r]);
      assert [r][..0] == [];
    }
  }

  /** Rewriting keeps every place's identifier, hence their uniqueness. */
  lemma RewrittenKeepsIds(before: Units, after: Units, log: seq<Definition>)
    requires Rewritten(before, after, log)
    ensures forall p :: Has(before, p) ==> Has(after, p) && DefAt(after, p).id == DefAt(before, p).id
    ensures UniqueIds(before) ==> UniqueIds(after)
    ensures OwnedIds(before) ==> OwnedIds(after)
  {
    forall p | Has(before, p)
      ensures Has(after, p) && DefAt(after, p).id == DefAt(before, p).id
    {
      LatestKeepsId(DefAt(before, p), log);
    }
  }

  // -------------------------------------------------------------- registry

  datatype Registered = Registered(definition: Definition, origin: ModId)

  type Registry = map<DefinitionId, Registered>

  /** The registry holds each place's definition with its owning package. */
  ghost predicate Registers(registry: Registry, units: Units) {
    && (forall p :: Has(units, p) ==>
          DefAt(units, p).id in registry && registry[DefAt(units, p).id] == Registered(DefAt(units, p), p.modId))
    && (forall id :: id in registry ==> Defined(units, id))
  }

  ghost predicate Defined(units: Units, id: DefinitionId) {
    exists p :: Has(units, p) && DefAt(units, p).id == id
  }

  lemma RegistersUnique(a: Registry, b: Registry, units: Units)
    requires Registers(a, units) && Registers(b, units)
    ensures a == b
  {
    forall id
      ensures id in a <==> id in b
      ensures id in a && id in b ==> a[id] == b[id]
    {
      if id in a || id in b {
        var p :| Has(units, p) && DefAt(units, p).id == id;
      }
    }
  }

  /**
   * What building checks beyond identities: each definition's own values, the
   * references among all of them, and the rules as `RuleCycles` reads them.
   */
  datatype Checks = Checks(
    local: Definition -> bool, references: Registry -> bool, rules: Registry -> RuleCycles.Definitions)

  predicate LocallySound(checks: Checks, registry: Registry) {
    forall id :: id in registry ==> checks.local(registry[id].definition)
  }

  /** A registry passes every check; in particular no chain of its rules triggers itself again. */
  ghost predicate Sound(checks: Checks, registry: Registry) {
    && LocallySound(checks, registry) && checks.references(registry)
    && !Cyclic(RuleCycles.TriggerGraph(checks.rules(registry)))
  }

  /** The one registry of the documents is sound. */
  ghost predicate SoundUnits(checks: Checks, units: Units) {
    exists r :: Registers(r, units) && Sound(checks, r)
  }

  lemma SoundUnitsExactly(checks: Checks, units: Units, registry: Registry)
    requires Registers(registry, units)
    ensures SoundUnits(checks, units) <==> Sound(checks, registry)
  {
    hide Registers, Sound;
    if SoundUnits(checks, units) {
      var r :| Registers(r, units) && Sound(checks, r);
      RegistersUnique(r, registry, units);
    }
  }

  lemma LocalFault(checks: Checks, units: Units, p: Place)
    requires Has(units, p) && !checks.local(DefAt(units, p))
    ensures !SoundUnits(checks, units)
  {
    forall r: Registry | Registers(r, units)
      ensures !Sound(checks, r)
    {
      assert r[DefAt(units, p).id].definition == DefAt(units, p);
    }
  }

  /** Every definition is named by an identifier of its own package. */
  ghost predicate OwnedIds(units: Units) {
    forall p :: Has(units, p) ==> DefAt(units, p).id.modId == p.modId
  }

  /** The places scanned before document `d`, index `k` of package `order[i]`. */
  ghost predicate Scanned(order: seq<ModId>, i: nat, d: nat, k: nat, p: Place) {
    || (exists j :: 0 <= j < i && j < |order| && order[j] == p.modId)
    || (i < |order| && order[i] == p.modId && (p.document < d || (p.document == d && p.index < k)))
  }

  /** The registry so far describes exactly the scanned places. */
  ghost predicate Gathered(units: Units, order: seq<ModId>, i: nat, d: nat, k: nat, registry: Registry) {
    && (forall p :: Has(units, p) && Scanned(order, i, d, k, p) ==>
          && DefAt(units, p).id in registry && registry[DefAt(units, p).id] == Registered(DefAt(units, p), p.modId)
          && DefAt(units, p).id.modId == p.modId)
    && (forall p, q :: Has(units, p) && Has(units, q) && Scanned(order, i, d, k, p) && Scanned(order, i, d, k, q) ==>
          DefAt(units, p).id == DefAt(units, q).id ==> p == q)
    && (forall id :: id in registry ==> GatheredFrom(units, order, i, d, k, id))
  }

  ghost predicate GatheredFrom(units: Units, order: seq<ModId>, i: nat, d: nat, k: nat, id: DefinitionId) {
    exists p :: Has(units, p) && Scanned(order, i, d, k, p) && DefAt(units, p).id == id
  }

  lemma GatherOne(units: Units, order: seq<ModId>, i: nat, d: nat, k: nat, registry: Registry)
    requires i < |order| && Distinct(order) && Has(units, Place(order[i], d, k))
    requires Gathered(units, order, i, d, k, registry)
    ensures var x := DefAt(units, Place(order[i], d, k));
      && (x.id.modId == order[i] && x.id !in registry ==>
            Gathered(units, order, i, d, k + 1, registry[x.id := Registered(x, order[i])]))
      && (x.id.modId != order[i] ==> !OwnedIds(units))
      && (x.id in registry ==> !UniqueIds(units))
  {
    var here := Place(order[i], d, k);
    var x := DefAt(units, here);
    assert !Scanned(order, i, d, k, here);
    forall p
      ensures Scanned(order, i, d, k + 1, p) <==> Scanned(order, i, d, k, p) || p == here
    {}
    if x.id in registry {
      assert GatheredFrom(units, order, i, d, k, x.id);
    } else {
      hide Scanned;
      var registry' := registry[x.id := Registered(x, order[i])];
      forall id | id in registry'
        ensures GatheredFrom(units, order, i, d, k + 1, id)
      {
        if id != x.id {
          assert GatheredFrom(units, order, i, d, k, id);
          var p :| Has(units, p) && Scanned(order, i, d, k, p) && DefAt(units, p).id == id;
          assert Scanned(order, i, d, k + 1, p);
        } else {
          assert Scanned(order, i, d, k + 1, here);
        }
      }
    }
  }

  lemma SameScan(units: Units, order: seq<ModId>, i: nat, d: nat, k: nat, i': nat, d': nat, k': nat, registry: Registry)
    requires Gathered(units, order, i, d, k, registry)
    requires forall p :: Has(units, p) ==> (Scanned(order, i, d, k, p) <==> Scanned(order, i', d', k', p))
    ensures Gathered(units, order, i', d', k', registry)
  {
    hide Scanned;
    forall id | id in registry
      ensures GatheredFrom(units, order, i', d', k', id)
    {
      assert GatheredFrom(units, order, i, d, k, id);
    }
  }

  lemma AllGathered(units: Units, order: seq<ModId>, registry: Registry)
    requires forall m :: m in order <==> m in units
    requires Gathered(units, order, |order|, 0, 0, registry)
    ensures UniqueIds(units) && OwnedIds(units) && Registers(registry, units)
  {
    forall p | Has(units, p)
      ensures Scanned(order, |order|, 0, 0, p)
    {
      assert p.modId in order;
    }
    hide Scanned;
    forall id | id in registry
      ensures Defined(units, id)
    {
      assert GatheredFrom(units, order, |order|, 0, 0, id);
    }
  }

  lemma NothingGathered(units: Units, order: seq<ModId>)
    ensures Gathered(units, order, 0, 0, 0, map[])
  {}

  /** `build_packages`: own identifiers, each defined once, and every further check. */
  method BuildRegistry(units: Units, order: seq<ModId>, checks: Checks) returns (registry: Option<Registry>)
    requires Distinct(order) && forall m :: m in order <==> m in units
    ensures registry.Some? <==> UniqueIds(units) && OwnedIds(units) && SoundUnits(checks, units)
    ensures registry.Some? ==> Registers(registry.value, units) && Sound(checks, registry.value)
  {
    hide Gathered, Scanned, UniqueIds, OwnedIds, Registers, SoundUnits, RuleCycles.TriggerGraph, Cyclic;
    var definitions: Registry := map[];
    NothingGathered(units, order);
    for i := 0 to |order|
      invariant Gathered(units, order, i, 0, 0, definitions) && LocallySound(checks, definitions)
    {
      assert order[i] in order;
      var found := GatherPackage(units, order, checks, i, definitions);
      if found.None? {
        return None;
      }
      definitions := found.value;
    }
    AllGathered(units, order, definitions);
    SoundUnitsExactly(checks, units, definitions);
    if !checks.references(definitions) {
      return None;
    }
    var accepted, _ := RuleCycles.ValidateRuleCycles(checks.rules(definitions));
    return if accepted.Ok? then Some(definitions) else None;
  }

  method GatherPackage(units: Units, order: seq<ModId>, checks: Checks, i: nat, registry: Registry)
    returns (r: Option<Registry>)
    requires Distinct(order) && i < |order| && order[i] in units
    requires Gathered(units, order, i, 0, 0, registry) && LocallySound(checks, registry)
    ensures r.None? ==> !UniqueIds(units) || !OwnedIds(units) || !SoundUnits(checks, units)
    ensures r.Some? ==> Gathered(units, order, i + 1, 0, 0, r.value) && LocallySound(checks, r.value)
  {
    hide Gathered, UniqueIds, OwnedIds, SoundUnits;
    var m := order[i];
    var definitions := registry;
    for d := 0 to |units[m]|
      invariant Gathered(units, order, i, d, 0, definitions) && LocallySound(checks, definitions)
    {
      hide Scanned;
      for k := 0 to |units[m][d]|
        invariant Gathered(units, order, i, d, k, definitions) && LocallySound(checks, definitions)
      {
        GatherOne(units, order, i, d, k, definitions);
        var x := units[m][d][k];
        if x.id.modId != m {
          return None;
        }
        if !checks.local(x) {
          LocalFault(checks, units, Place(m, d, k));
          return None;
        }
        if x.id in definitions {
          return None;
        }
        definitions := definitions[x.id := Registered(x, m)];
      }
      NextDocument(units, order, i, d, definitions);
    }
    NextPackage(units, order, i, definitions);
    return Some(definitions);
  }

  lemma NextDocument(units: Units, order: seq<ModId>, i: nat, d: nat, registry: Registry)
    requires i < |order| && order[i] in units && d < |units[order[i]]|
    requires Gathered(units, order, i, d, |units[order[i]][d]|, registry)
    ensures Gathered(units, order, i, d + 1, 0, registry)
  {
    SameScan(units, order, i, d, |units[order[i]][d]|, i, d + 1, 0, registry);
  }

  lemma NextPackage(units: Units, order: seq<ModId>, i: nat, registry: Registry)
    requires i < |order| && order[i] in units
    requires Gathered(units, order, i, |units[order[i]]|, 0, registry)
    ensures Gathered(units, order, i + 1, 0, 0, registry)
  {
    SameScan(units, order, i, |units[order[i]]|, 0, i + 1, 0, 0, registry);
  }

  // ----------------------------------------------------------- patch faults

  function PatchRank(p: PatchDeclaration): Rank { DefinitionRank(p.id) }

  predicate Depends(package: Package, m: ModId) {
    exists i :: 0 <= i < |package.dependencies| && package.dependencies[i].modId == m
  }

  predicate Fits(baseline: Registry, target: DefinitionId, replacement: Definition) {
    replacement.id == target && target in baseline && baseline[target].definition.kind == replacement.kind
  }

  predicate AllFit(baseline: Registry, target: DefinitionId, replacements: seq<Definition>) {
    forall i :: 0 <= i < |replacements| ==> Fits(baseline, target, replacements[i])
  }

  /** What is wrong with a patch before any of its operations is applied. */
  function DeclarationFault(
    packages: PackageMap, baseline: Registry, package: Package, patch: PatchDeclaration): Option<PackageError>
  {
    if !Depends(package, patch.targetMod) then Some(InvalidPatch)
    else if patch.targetMod !in packages then Some(InvalidPatch)
    else if !patch.targetVersion(packages[patch.targetMod].version) then Some(InvalidPatch)
    else if patch.target !in baseline || baseline[patch.target].origin != patch.targetMod then Some(InvalidPatch)
    else if patch.file !in package.files then Some(InvalidPatch)
    else if package.files[patch.file].None? then Some(InvalidData)
    else
      var document := package.files[patch.file].value;
      if document.schemaVersion != CONTENT_SCHEMA_V1 || document.replacements == [] then Some(InvalidPatch) else None
  }

  function PatchFault(
    packages: PackageMap, baseline: Registry, package: Package, patch: PatchDeclaration): Option<PackageError>
  {
    var fault := DeclarationFault(packages, baseline, package, patch);
    if fault.Some? then fault
    else if !AllFit(baseline, patch.target, Replacements(package, patch)) then Some(InvalidPatch)
    else None
  }

  /** A patch's replacements, in document order. */
  function Replacements(package: Package, patch: PatchDeclaration): seq<Definition> {
    if patch.file in package.files && package.files[patch.file].Some? then package.files[patch.file].value.replacements
      else []
  }

  function FirstPatchFault(
    packages: PackageMap, baseline: Registry, package: Package, patches: seq<PatchDeclaration>): Option<PackageError>
    decreases |patches|
  {
    if patches == [] then None
    else
      var earlier := FirstPatchFault(packages, baseline, package, patches[..|patches| - 1]);
      if earlier.Some? then earlier else PatchFault(packages, baseline, package, patches[|patches| - 1])
  }

  /** The first fault in package order, then patch identifier order. */
  function FirstFaultIn(packages: PackageMap, baseline: Registry, order: seq<ModId>): Option<PackageError>
    decreases |order|
  {
    if order == [] then None
    else
      var earlier, m := FirstFaultIn(packages, baseline, order[..|order| - 1]), order[|order| - 1];
      if earlier.Some? then earlier
      else if m !in packages then Some(InvalidPatch)
      else FirstPatchFault(packages, baseline, packages[m], Sort(packages[m].patches, PatchRank))
  }

  /** Every replacement of some patches of a package, in order. */
  function PatchLog(package: Package, patches: seq<PatchDeclaration>): seq<Definition>
    decreases |patches|
  {
    if patches == [] then []
    else PatchLog(package, patches[..|patches| - 1]) + Replacements(package, patches[|patches| - 1])
  }

  /** Every replacement in (package order, patch identifier, operation) order. */
  function ReplacementLog(packages: PackageMap, order: seq<ModId>): seq<Definition>
    requires forall m :: m in order ==> m in packages
    decreases |order|
  {
    if order == [] then []
    else
      var prefix, m := order[..|order| - 1], order[|order| - 1];
      assert forall i :: i in prefix ==> i in order;
      ReplacementLog(packages, prefix) + PatchLog(packages[m], Sort(packages[m].patches, PatchRank))
  }

  /** The result reports the fault, or success when there is none. */
  predicate Reports(r: Result<(), PackageError>, fault: Option<PackageError>) {
    if r.Ok? then fault.None? else fault == Some(r.error)
  }

  /** Some place holds the target, with the replacement's identifier and kind. */
  ghost predicate Replaceable(units: Units, target: DefinitionId, replacement: Definition) {
    && replacement.id == target
    && (exists p :: Has(units, p) && DefAt(units, p).id == target && DefAt(units, p).kind == replacement.kind)
  }

  // ------------------------------------------------------------ the units

  /** The parsed documents that patching rewrites in place. */
  class ContentUnits {
    var units: Units

    constructor (units: Units)
      ensures this.units == units
    {
      this.units := units;
    }

    /** The first place, in mod, document and list order, holding an identifier. */
    method Find(id: DefinitionId) returns (found: Option<Place>)
      ensures found.None? ==> !Defined(units, id)
      ensures found.Some? ==> Has(units, found.value) && DefAt(units, found.value).id == id
    {
      hide Ascending;
      AscendingFacts(units.Keys);
      var mods := Ascending(units.Keys);
      for i := 0 to |mods|
        invariant forall p :: Has(units, p) && p.modId in mods[..i] ==> DefAt(units, p).id != id
      {
        var documents: seq<seq<Definition>> := units[mods[i]];
        for d := 0 to |documents|
          invariant forall e, k :: 0 <= e < d && 0 <= k < |documents[e]| ==> documents[e][k].id != id
        {
          for k := 0 to |documents[d]|
            invariant forall l :: 0 <= l < k ==> documents[d][l].id != id
          {
            if documents[d][k].id == id {
              return Some(Place(mods[i], d, k));
            }
          }
        }
        assert mods[..i + 1] == mods[..i] + [mods[i]];
      }
      assert mods[..|mods|] == mods;
      return None;
    }

    /** `replace_definition`: overwrite the definition with the target's identifier. */
    method ReplaceDefinition(target: DefinitionId, replacement: Definition) returns (r: Result<(), PackageError>)
      requires UniqueIds(units)
      modifies this`units
      ensures r.Ok? <==> Replaceable(old(units), target, replacement)
      ensures r.Ok? ==> Rewritten(old(units), units, [replacement])
      ensures r.Err? ==> units == old(units) && r.error == InvalidPatch
    {
      if replacement.id != target {
        return Err(InvalidPatch);
      }
      var found := Find(target);
      if found.None? {
        return Err(InvalidPatch);
      }
      var p := found.value;
      if DefAt(units, p).kind != replacement.kind {
        return Err(InvalidPatch);
      }
      var documents := units[p.modId];
      OnePlaceRewritten(units, p, replacement);
      units := units[p.modId := documents[p.document := documents[p.document][p.index := replacement]]];
      return Ok(());
    }

    /** Apply a patch's replacements in order. */
    method ApplyReplacements(
      baseline: Registry, target: DefinitionId, replacements: seq<Definition>, ghost origin: Units,
      ghost log: seq<Definition>)
      returns (r: Result<(), PackageError>)
      requires Underway(origin, units, baseline, log)
      requires target in baseline
      modifies this`units
      ensures r.Ok? <==> AllFit(baseline, target, replacements)
      ensures r.Err? ==> r.error == InvalidPatch
      ensures r.Ok? ==> Underway(origin, units, baseline, log + replacements)
      ensures SameShape(origin, units)
    {
      hide Fits, Replaceable, UniqueIds, Rewritten, SameShape;
      UnderwayShape(origin, units, baseline, log);
      assert log + replacements[..0] == log;
      for i := 0 to |replacements|
        invariant Underway(origin, units, baseline, log + replacements[..i])
        invariant AllFit(baseline, target, replacements[..i])
        invariant UniqueIds(units) && SameShape(origin, units)
      {
        hide Underway;
        ReplaceableExactly(origin, units, baseline, log + replacements[..i], target, replacements[i]);
        ghost var before := units;
        r := ReplaceDefinition(target, replacements[i]);
        if r.Err? {
          return;
        }
        UnderwayMore(origin, before, units, baseline, log + replacements[..i], target, replacements[i]);
        assert replacements[..i + 1] == replacements[..i] + [replacements[i]];
        assert log + replacements[..i + 1] == log + replacements[..i] + [replacements[i]];
        UnderwayShape(origin, units, baseline, log + replacements[..i + 1]);
      }
      assert replacements[..|replacements|] == replacements;
      return Ok(());
    }

    /** Check a patch's declaration and document, then apply its operations. */
    method ApplyPatch(
      packages: PackageMap, baseline: Registry, package: Package, patch: PatchDeclaration, ghost origin: Units,
      ghost log: seq<Definition>)
      returns (r: Result<(), PackageError>)
      requires Underway(origin, units, baseline, log)
      modifies this`units
      ensures Reports(r, PatchFault(packages, baseline, package, patch))
      ensures r.Ok? ==> Underway(origin, units, baseline, log + Replacements(package, patch))
      ensures SameShape(origin, units)
    {
      hide Underway, SameShape, AllFit, Depends;
      UnderwayShape(origin, units, baseline, log);
      if !Depends(package, patch.targetMod) || patch.targetMod !in packages
        || !patch.targetVersion(packages[patch.targetMod].version)
        || patch.target !in baseline || baseline[patch.target].origin != patch.targetMod || patch.file !in package.files
      {
        return Err(InvalidPatch);
      }
      if package.files[patch.file].None? {
        return Err(InvalidData);
      }
      var document := package.files[patch.file].value;
      if document.schemaVersion != CONTENT_SCHEMA_V1 || document.replacements == [] {
        return Err(InvalidPatch);
      }
      r := ApplyReplacements(baseline, patch.target, document.replacements, origin, log);
    }

    /** One package's patches in identifier order. */
    method ApplyPackage(
      packages: PackageMap, baseline: Registry, package: Package, ghost origin: Units, ghost log: seq<Definition>)
      returns (r: Result<(), PackageError>)
      requires Underway(origin, units, baseline, log)
      modifies this`units
      ensures var patches := Sort(package.patches, PatchRank);
        && Reports(r, FirstPatchFault(packages, baseline, package, patches))
        && (r.Ok? ==> Underway(origin, units, baseline, log + PatchLog(package, patches)))
      ensures SameShape(origin, units)
    {
      hide Underway, SameShape, PatchFault, Sort, Replacements;
      var patches := Sort(package.patches, PatchRank);
      UnderwayShape(origin, units, baseline, log);
      assert patches[..0] == [];
      assert log + PatchLog(package, []) == log;
      for i := 0 to |patches|
        invariant Underway(origin, units, baseline, log + PatchLog(package, patches[..i]))
        invariant FirstPatchFault(packages, baseline, package, patches[..i]).None?
        invariant SameShape(origin, units)
      {
        hide FirstPatchFault, PatchLog;
        PatchesStep(packages, baseline, package, patches, i);
        r := ApplyPatch(packages, baseline, package, patches[i], origin, log + PatchLog(package, patches[..i]));
        if r.Err? {
          FirstPatchFaultStays(packages, baseline, package, patches, i + 1);
          return;
        }
        assert log + PatchLog(package, patches[..i + 1]) == log + PatchLog(package,
          patches[..i]) + Replacements(package, patches[i]);
      }
      assert patches[..|patches|] == patches;
      return Ok(());
    }

    /**
     * `apply_patches`. It succeeds exactly when no patch has a fault, and then
     * every definition holds the last replacement aimed at it.
     */
    method ApplyPatches(
      packages: PackageMap, baseline: Registry, order: seq<ModId>) returns (r: Result<(), PackageError>)
      requires UniqueIds(units) && Registers(baseline, units)
      modifies this`units
      ensures Reports(r, FirstFaultIn(packages, baseline, order))
      ensures r.Ok? ==> forall m :: m in order ==> m in packages
      ensures r.Ok? ==> Rewritten(old(units), units, ReplacementLog(packages, order)) && KindsKept(old(units), units)
      ensures SameShape(old(units), units)
    {
      hide Rewritten, SameShape, FirstPatchFault, PatchLog, Sort, UniqueIds, Registers, KindsKept;
      ghost var origin := units;
      StartUnderway(units, baseline);
      UnderwayShape(origin, units, baseline, []);
      assert order[..0] == [];
      for i := 0 to |order|
        invariant forall m :: m in order[..i] ==> m in packages
        invariant Underway(origin, units, baseline, ReplacementLog(packages, order[..i]))
        invariant FirstFaultIn(packages, baseline, order[..i]).None?
        invariant SameShape(origin, units)
      {
        hide Underway, FirstFaultIn, ReplacementLog;
        FirstFaultStep(packages, baseline, order, i);
        if order[i] !in packages {
          FirstFaultStays(packages, baseline, order, i + 1);
          return Err(InvalidPatch);
        }
        LogStep(packages, order, i);
        r := ApplyPackage(packages, baseline, packages[order[i]], origin, ReplacementLog(packages, order[..i]));
        if r.Err? {
          FirstFaultStays(packages, baseline, order, i + 1);
          return;
        }
      }
      assert order[..|order|] == order;
      return Ok(());
    }
  }

  /** The registry holds each definition's last replacement, under the package that defined it. */
  ghost predicate RegistersLatest(registry: Registry, units: Units, log: seq<Definition>) {
    && (forall p :: Has(units, p) ==>
          var d := DefAt(units, p);
          d.id in registry && registry[d.id] == Registered(Latest(d, log), p.modId))
    && (forall id :: id in registry ==> Defined(units, id))
  }

  /**
   * When a compilation gives a registry: identifiers are owned and unique, the
   * registry before patching is sound, no patch has a fault, and the registry
   * after patching is sound again.
   */
  ghost predicate Compiles(checks: Checks, packages: PackageMap, order: seq<ModId>, units: Units) {
    && UniqueIds(units) && OwnedIds(units) && (forall m :: m in order ==> m in packages)
    && exists baseline, patched ::
         && Registers(baseline, units) && Sound(checks, baseline)
         && FirstFaultIn(packages, baseline, order).None?
         && RegistersLatest(patched, units, ReplacementLog(packages, order)) && Sound(checks, patched)
  }

  /**
   * The registry of a compilation: build, patch, build again. The second build
   * repeats every check, and what it finds is only what patching broke among
   * values, references and rules.
   */
  method CompileRegistry(packages: PackageMap, content: ContentUnits, order: seq<ModId>, checks: Checks)
    returns (registry: Option<Registry>)
    requires Distinct(order) && forall m :: m in order <==> m in content.units
    modifies content`units
    ensures registry.Some? <==> Compiles(checks, packages, order, old(content.units))
    ensures registry.Some? ==>
      && (forall m :: m in order ==> m in packages)
      && RegistersLatest(registry.value, old(content.units), ReplacementLog(packages, order))
      && Sound(checks, registry.value)
  {
    hide UniqueIds, OwnedIds, Registers, RegistersLatest, FirstFaultIn, ReplacementLog, Rewritten, SameShape, Sound,
      SoundUnits, Compiles;
    ghost var before := content.units;
    var baseline := BuildRegistry(content.units, order, checks);
    CompilesFirst(checks, packages, order, before, baseline);
    if baseline.None? {
      return None;
    }
    var patched := content.ApplyPatches(packages, baseline.value, order);
    if patched.Err? {
      return None;
    }
    PatchedUnits(before, content.units, order, ReplacementLog(packages, order));
    registry := BuildRegistry(content.units, order, checks);
    CompilesThen(checks, packages, order, before, baseline.value, content.units);
    if registry.Some? {
      RegistersPatched(registry.value, before, content.units, ReplacementLog(packages, order));
    }
  }

  /** Compiling needs the first build, and patches without fault over its registry. */
  lemma CompilesFirst(
    checks: Checks, packages: PackageMap, order: seq<ModId>, units: Units, baseline: Option<Registry>)
    requires baseline.Some? <==> UniqueIds(units) && OwnedIds(units) && SoundUnits(checks, units)
    requires baseline.Some? ==> Registers(baseline.value, units)
    ensures Compiles(checks, packages, order, units) ==>
      baseline.Some? && FirstFaultIn(packages, baseline.value, order).None?
  {
    hide UniqueIds, OwnedIds, Registers, RegistersLatest, FirstFaultIn, ReplacementLog, Sound;
    if Compiles(checks, packages, order, units) {
      var r, patched :| Registers(r, units) && Sound(checks, r) && FirstFaultIn(packages, r, order).None?
        && RegistersLatest(patched, units, ReplacementLog(packages, order)) && Sound(checks, patched);
      assert SoundUnits(checks, units);
      RegistersUnique(r, baseline.value, units);
    }
  }

  /** After that, compiling means that the patched documents are sound. */
  lemma CompilesThen(
    checks: Checks, packages: PackageMap, order: seq<ModId>, units: Units, baseline: Registry, after: Units)
    requires UniqueIds(units) && OwnedIds(units) && forall m :: m in order ==> m in packages
    requires Registers(baseline, units) && Sound(checks, baseline) && FirstFaultIn(packages, baseline, order).None?
    requires Rewritten(units, after, ReplacementLog(packages, order))
    ensures Compiles(checks, packages, order, units) <==> SoundUnits(checks, after)
  {
    hide UniqueIds, OwnedIds, Registers, RegistersLatest, FirstFaultIn, ReplacementLog, Sound, Rewritten;
    var log := ReplacementLog(packages, order);
    forall r
      ensures Registers(r, after) <==> RegistersLatest(r, units, log)
    {
      RegistersPatched(r, units, after, log);
    }
  }

  lemma PatchedUnits(before: Units, after: Units, order: seq<ModId>, log: seq<Definition>)
    requires Rewritten(before, after, log) && UniqueIds(before) && OwnedIds(before)
    ensures UniqueIds(after) && OwnedIds(after) && before.Keys == after.Keys
  {
    RewrittenKeepsIds(before, after, log);
  }

  /** Registering the patched documents is registering the latest definitions. */
  lemma RegistersPatched(registry: Registry, before: Units, after: Units, log: seq<Definition>)
    requires Rewritten(before, after, log)
    ensures Registers(registry, after) <==> RegistersLatest(registry, before, log)
  {
    RewrittenKeepsIds(before, after, log);
    assert forall p :: Has(before, p) <==> Has(after, p);
    forall id
      ensures Defined(before, id) <==> Defined(after, id)
    {
      if p :| Has(before, p) && DefAt(before, p).id == id {
        assert DefAt(after, p).id == id;
      }
      if p :| Has(after, p) && DefAt(after, p).id == id {
        assert DefAt(before, p).id == id;
      }
    }
  }

  // ------------------------------------------------------------ the proof

  /** Every place keeps the kind of its definition. */
  ghost predicate KindsKept(before: Units, after: Units) {
    forall p :: Has(before, p) && Has(after, p) ==> DefAt(after, p).kind == DefAt(before, p).kind
  }

  /** The units are the original ones rewritten by the log so far. */
  ghost predicate Underway(origin: Units, units: Units, baseline: Registry, log: seq<Definition>) {
    && UniqueIds(origin) && Registers(baseline, origin)
    && Rewritten(origin, units, log) && KindsKept(origin, units)
  }

  lemma StartUnderway(units: Units, baseline: Registry)
    requires UniqueIds(units) && Registers(baseline, units)
    ensures Underway(units, units, baseline, [])
  {
    RewrittenNothing(units);
  }

  lemma UnderwayShape(origin: Units, units: Units, baseline: Registry, log: seq<Definition>)
    requires Underway(origin, units, baseline, log)
    ensures UniqueIds(units) && SameShape(origin, units)
  {
    RewrittenKeepsIds(origin, units, log);
  }

  /** Midway, a replacement fits the units exactly when it fits the original registry. */
  lemma ReplaceableExactly(
    origin: Units, units: Units, baseline: Registry, log: seq<Definition>, target: DefinitionId,
    replacement: Definition)
    requires Underway(origin, units, baseline, log) && target in baseline
    ensures Replaceable(units, target, replacement) <==> Fits(baseline, target, replacement)
  {
    RewrittenKeepsIds(origin, units, log);
    UnderwayShape(origin, units, baseline, log);
    assert Defined(origin, target);
    var p :| Has(origin, p) && DefAt(origin, p).id == target;
    assert Has(units, p) && DefAt(units, p).id == target;
    assert DefAt(units, p).kind == baseline[target].definition.kind;
  }

  lemma UnderwayMore(
    origin: Units, before: Units, after: Units, baseline: Registry, log: seq<Definition>, target: DefinitionId,
    r: Definition)
    requires Underway(origin, before, baseline, log)
    requires Rewritten(before, after, [r])
    requires Fits(baseline, target, r)
    ensures Underway(origin, after, baseline, log + [r])
  {
    RewrittenMore(origin, before, after, log, r);
    RewrittenKeepsIds(origin, before, log);
    forall p | Has(origin, p) && Has(after, p)
      ensures DefAt(after, p).kind == DefAt(origin, p).kind
    {
      assert Has(before, p);
      assert [r][..0] == [];
      assert DefAt(after, p) == Latest(DefAt(before, p), [r]);
    }
  }

  lemma PatchesStep(packages: PackageMap, baseline: Registry, package: Package, patches: seq<PatchDeclaration>, i: nat)
    requires i < |patches|
    ensures FirstPatchFault(packages, baseline, package, patches[..i]).None? ==>
      FirstPatchFault(packages, baseline, package, patches[..i + 1]) == PatchFault(packages, baseline, package,
        patches[i])
    ensures PatchLog(package, patches[..i + 1]) == PatchLog(package, patches[..i]) + Replacements(package, patches[i])
  {
    assert patches[..i + 1][..i] == patches[..i];
  }

  /** A fault among the first patches is the first fault of all. */
  lemma {:induction false} FirstPatchFaultStays(
    packages: PackageMap, baseline: Registry, package: Package, patches: seq<PatchDeclaration>, i: nat)
    requires i <= |patches| && FirstPatchFault(packages, baseline, package, patches[..i]).Some?
    ensures FirstPatchFault(packages, baseline, package, patches) == FirstPatchFault(packages, baseline, package,
      patches[..i])
    decreases |patches|
  {
    if i == |patches| {
      assert patches[..i] == patches;
    } else {
      assert patches[..|patches| - 1][..i] == patches[..i];
      FirstPatchFaultStays(packages, baseline, package, patches[..|patches| - 1], i);
    }
  }

  lemma FirstFaultStep(packages: PackageMap, baseline: Registry, order: seq<ModId>, i: nat)
    requires i < |order| && FirstFaultIn(packages, baseline, order[..i]).None?
    ensures order[i] !in packages ==> FirstFaultIn(packages, baseline, order[..i + 1]) == Some(InvalidPatch)
    ensures order[i] in packages ==>
      FirstFaultIn(packages, baseline, order[..i + 1])
      == FirstPatchFault(packages, baseline, packages[order[i]], Sort(packages[order[i]].patches, PatchRank))
  {
    assert order[..i + 1][..i] == order[..i];
  }

  lemma LogStep(packages: PackageMap, order: seq<ModId>, i: nat)
    requires i < |order| && order[i] in packages && forall m :: m in order[..i] ==> m in packages
    ensures forall m :: m in order[..i + 1] ==> m in packages
    ensures ReplacementLog(packages, order[..i + 1])
      == ReplacementLog(packages, order[..i]) + PatchLog(packages[order[i]],
        Sort(packages[order[i]].patches, PatchRank))
  {
    assert order[..i + 1] == order[..i] + [order[i]];
    assert order[..i + 1][..i] == order[..i];
  }

  lemma {:induction false} FirstFaultStays(packages: PackageMap, baseline: Registry, order: seq<ModId>, i: nat)
    requires i <= |order| && FirstFaultIn(packages, baseline, order[..i]).Some?
    ensures FirstFaultIn(packages, baseline, order) == FirstFaultIn(packages, baseline, order[..i])
    decreases |order|
  {
    if i == |order| {
      assert order[..i] == order;
    } else {
      assert order[..|order| - 1][..i] == order[..i];
      FirstFaultStays(packages, baseline, order[..|order| - 1], i);
    }
  }

  ghost function Overwrite(units: Units, p: Place, replacement: Definition): Units
    requires Has(units, p)
  {
    var documents := units[p.modId];
    units[p.modId := documents[p.document := documents[p.document][p.index := replacement]]]
  }

  lemma OnePlaceRewritten(units: Units, p: Place, replacement: Definition)
    requires UniqueIds(units) && Has(units, p) && DefAt(units, p).id == replacement.id
    ensures Rewritten(units, Overwrite(units, p, replacement), [replacement])
  {
    var after := Overwrite(units, p, replacement);
    forall q | Has(units, q)
      ensures DefAt(after, q) == Latest(DefAt(units, q), [replacement])
    {
      assert DefAt(units, q).id == replacement.id <==> q == p;
    }
  }
}
