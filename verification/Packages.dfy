/** Content packages and the order in which their dependencies install them. */
module Packages {
  import opened Outcomes
  import opened Graphs
  import opened Locks

  const MOD_MANIFEST_SCHEMA_V1: nat := 1
  const CONTENT_SCHEMA_V1: nat := 1

  /** A definition: its identity, its kind and everything else about it. */
  datatype Definition = Definition(id: DefinitionId, kind: nat, body: nat)

  datatype PatchDocument = PatchDocument(schemaVersion: nat, replacements: seq<Definition>)

  datatype Dependency = Dependency(modId: ModId, requirement: Version -> bool, optional: bool)

  datatype PatchDeclaration = PatchDeclaration(
    id: DefinitionId, file: nat, targetMod: ModId, targetVersion: Version -> bool, target: DefinitionId)

  /** A parsed package; a patch file that does not parse is present as `None`. */
  datatype Package = Package(
    modId: ModId, version: Version, contentHash: nat, manifestSchema: nat, contentSchema: nat, sourceKind: SourceKind,
    dependencies: seq<Dependency>, patches: seq<PatchDeclaration>, files: map<nat, Option<PatchDocument>>)

  datatype PackageError =
    | InvalidManifest
    | MissingDependency
    | IncompatibleDependency
    | DependencyCycle
    | InvalidPatch
    | InvalidData
    | InvalidLock

  // ------------------------------------------------------------ manifests

  ghost predicate SoundDependencies(p: Package) {
    && (forall i :: 0 <= i < |p.dependencies| ==> p.dependencies[i].modId != p.modId)
    && (forall i, j :: 0 <= i < j < |p.dependencies| ==> p.dependencies[i].modId != p.dependencies[j].modId)
  }

  ghost predicate SoundPatches(p: Package) {
    && (forall i :: 0 <= i < |p.patches| ==>
          && p.patches[i].id.modId == p.modId && p.patches[i].targetMod != p.modId
          && p.patches[i].target.modId == p.patches[i].targetMod)
    && (forall i, j :: 0 <= i < j < |p.patches| ==>
          p.patches[i].id != p.patches[j].id && p.patches[i].file != p.patches[j].file)
  }

  /** What manifest validation guarantees about schemas, dependencies and patches. */
  ghost predicate ValidPackage(p: Package) {
    && p.manifestSchema == MOD_MANIFEST_SCHEMA_V1 && p.contentSchema == CONTENT_SCHEMA_V1
    && SoundDependencies(p) && SoundPatches(p)
  }

  /** The parts of `validate_manifest` that ordering, locking and patching rely on. */
  method ValidateManifest(p: Package) returns (r: Result<(), PackageError>)
    ensures r.Ok? <==> ValidPackage(p)
    ensures r == Err(InvalidPatch) ==> !SoundPatches(p)
  {
    if p.manifestSchema != MOD_MANIFEST_SCHEMA_V1 || p.contentSchema != CONTENT_SCHEMA_V1 {
      return Err(InvalidManifest);
    }
    var dependencies: set<ModId> := {};
    for i := 0 to |p.dependencies|
      invariant dependencies == set j | 0 <= j < i :: p.dependencies[j].modId
      invariant forall j :: 0 <= j < i ==> p.dependencies[j].modId != p.modId
      invariant forall j, k :: 0 <= j < k < i ==> p.dependencies[j].modId != p.dependencies[k].modId
    {
      var dependency := p.dependencies[i];
      if dependency.modId == p.modId || dependency.modId in dependencies {
        return Err(InvalidManifest);
      }
      dependencies := dependencies + {dependency.modId};
    }
    var ids: set<DefinitionId>, files: set<nat> := {}, {};
    for i := 0 to |p.patches|
      invariant ids == set j | 0 <= j < i :: p.patches[j].id
      invariant files == set j | 0 <= j < i :: p.patches[j].file
      invariant SoundPatches(p.(patches := p.patches[..i]))
    {
      var patch := p.patches[i];
      if patch.targetMod == p.modId || patch.id.modId != p.modId || patch.target.modId != patch.targetMod
        || patch.id in ids || patch.file in files
      {
        return Err(InvalidPatch);
      }
      ids, files := ids + {patch.id}, files + {patch.file};
    }
    assert p.patches[..|p.patches|] == p.patches;
    return Ok(());
  }

  // ------------------------------------------------------- the dependency graph

  type PackageMap = map<ModId, Package>

  /** A declared dependency is present at an accepted version, or absent and optional. */
  predicate Met(packages: PackageMap, d: Dependency) {
    if d.modId in packages then d.requirement(packages[d.modId].version) else d.optional
  }

  /** Every dependency of a package is met. */
  ghost predicate AllMet(packages: PackageMap, ds: seq<Dependency>) {
    forall k :: 0 <= k < |ds| ==> Met(packages, ds[k])
  }

  ghost predicate Resolved(packages: PackageMap) {
    forall m :: m in packages ==> AllMet(packages, packages[m].dependencies)
  }

  /** The error tells which way dependency `k`, the first of these that is not met, fails. */
  ghost predicate FirstUnmet(packages: PackageMap, ds: seq<Dependency>, k: nat, error: PackageError) {
    && k < |ds| && AllMet(packages, ds[..k])
    && (error == MissingDependency || error == IncompatibleDependency)
    && (error == MissingDependency ==> ds[k].modId !in packages && !ds[k].optional)
    && (error == IncompatibleDependency ==>
          ds[k].modId in packages && !ds[k].requirement(packages[ds[k].modId].version))
  }

  /** The error is that of the first unmet dependency in mod order, then declaration order. */
  ghost predicate FirstUnresolved(packages: PackageMap, error: PackageError) {
    exists m, k: nat ::
      && m in packages && FirstUnmet(packages, packages[m].dependencies, k, error)
      && (forall n :: n in packages && n < m ==> AllMet(packages, packages[n].dependencies))
  }

  /** Each package points at the packages present that it depends on. */
  ghost function DependencyGraph(packages: PackageMap): Graph {
    map m | m in packages :: PresentDependencies(packages, packages[m].dependencies)
  }

  ghost function PresentDependencies(packages: PackageMap, ds: seq<Dependency>): set<ModId> {
    set k | 0 <= k < |ds| && ds[k].modId in packages :: ds[k].modId
  }

  // ---------------------------------------------------------- counting edges

  /** How many of the dependencies name the given package. */
  ghost function Naming(ds: seq<Dependency>, b: ModId): nat
    decreases |ds|
  {
    if ds == [] then 0 else (if ds[|ds| - 1].modId == b then 1 else 0) + Naming(ds[..|ds| - 1], b)
  }

  /** How many of the dependencies name a package present and not yet emitted. */
  ghost function Pending(packages: PackageMap, ds: seq<Dependency>, emitted: set<ModId>): nat
    decreases |ds|
  {
    if ds == [] then 0
    else
      var last := ds[|ds| - 1].modId;
      (if last in packages && last !in emitted then 1 else 0) + Pending(packages, ds[..|ds| - 1], emitted)
  }

  lemma {:induction false} PendingZero(packages: PackageMap, ds: seq<Dependency>, emitted: set<ModId>)
    ensures Pending(packages, ds, emitted) == 0 <==> PresentDependencies(packages, ds) <= emitted
    decreases |ds|
  {
    if ds != [] {
      var rest, last := ds[..|ds| - 1], ds[|ds| - 1].modId;
      PendingZero(packages, rest, emitted);
      assert PresentDependencies(packages, ds) == PresentDependencies(packages, rest) + (if last in packages
        then {last} else {}) by {
        forall b
          ensures b in PresentDependencies(packages, ds) <==>
            b in PresentDependencies(packages, rest) || (b == last && last in packages)
        {
          if k :| 0 <= k < |rest| && rest[k].modId == b {
            assert ds[k].modId == b;
          }
        }
      }
    }
  }

  /** Emitting a package satisfies exactly the dependencies naming it. */
  lemma {:induction false} PendingFalls(packages: PackageMap, ds: seq<Dependency>, emitted: set<ModId>, b: ModId)
    requires b in packages && b !in emitted
    ensures Pending(packages, ds, emitted + {b}) + Naming(ds, b) == Pending(packages, ds, emitted)
    decreases |ds|
  {
    if ds != [] {
      PendingFalls(packages, ds[..|ds| - 1], emitted, b);
    }
  }

  lemma {:induction false} NamingZero(packages: PackageMap, ds: seq<Dependency>, b: ModId)
    requires b in packages
    ensures Naming(ds, b) == 0 <==> b !in PresentDependencies(packages, ds)
    decreases |ds|
  {
    if ds != [] {
      var rest := ds[..|ds| - 1];
      NamingZero(packages, rest, b);
      if k :| 0 <= k < |rest| && rest[k].modId == b {
        assert ds[k].modId == b;
      }
      if k :| 0 <= k < |ds| && ds[k].modId == b {
        assert k < |rest| ==> rest[k].modId == b;
      }
    }
  }
}
