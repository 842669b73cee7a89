/**
 * Two packages that compile up to the last step: the patch of the second one
 * has no fault, and the rule it leaves behind triggers itself.
 */
module PatchWitnesses {
  import opened Outcomes
  import opened Ordering
  import opened Graphs
  import opened Locks
  import opened Packages
  import opened Patches
  import RuleCycles

  const RULE_ID: DefinitionId := DefinitionId(0, 1)
  const QUIET_RULE: Definition := Definition(RULE_ID, 0, 0)
  const LOUD_RULE: Definition := Definition(RULE_ID, 0, 1)

  const PATCH: PatchDeclaration := PatchDeclaration(DefinitionId(0, 2), 0, 1, v => true, RULE_ID)
  const PATCHED: Package :=
    Package(1, 1, 0, MOD_MANIFEST_SCHEMA_V1, CONTENT_SCHEMA_V1, Builtin, [], [], map[])
  const PATCHING: Package :=
    Package(2, 1, 0, MOD_MANIFEST_SCHEMA_V1, CONTENT_SCHEMA_V1, Builtin, [Dependency(1, v => true, false)], [PATCH],
      map[0 := Some(PatchDocument(CONTENT_SCHEMA_V1, [LOUD_RULE]))])

  const PACKAGES: PackageMap := map[1 := PATCHED, 2 := PATCHING]
  const ORDER: seq<ModId> := [1, 2]
  const UNITS: Units := map[1 := [[QUIET_RULE]], 2 := []]

  /** A rule listening to a tick; body 1 also emits one. */
  function RuleOf(d: Definition): RuleCycles.Definition {
    RuleCycles.Rule(Some("tick"), if d.body == 1 then [RuleCycles.EmitEvent("tick")] else [])
  }

  function RulesOf(registry: Registry): RuleCycles.Definitions {
    if RULE_ID in registry then map[0 := RuleOf(registry[RULE_ID].definition)] else map[]
  }

  const CHECKS: Checks := Checks(d => true, r => true, r => RulesOf(r))

  const BASELINE: Registry := map[RULE_ID := Registered(QUIET_RULE, 1)]
  const RESULT: Registry := map[RULE_ID := Registered(LOUD_RULE, 1)]

  lemma BaselineIsSound()
    ensures Sound(CHECKS, BASELINE)
  {
    var g := RuleCycles.TriggerGraph(RulesOf(BASELINE));
    assert g.Keys == {0} && g[0] == {} by {
      assert forall e :: !RuleCycles.Raises(RulesOf(BASELINE)[0], e);
    }
    assert Ranked(g, map[0 := 0]);
    RankedIsAcyclic(g, map[0 := 0]);
  }

  lemma ResultIsUnsound()
    ensures !Sound(CHECKS, RESULT)
  {
    var rules := RulesOf(RESULT);
    var g := RuleCycles.TriggerGraph(rules);
    assert RuleCycles.EffectEventType(rules[0].effects[0]) == "tick";
    assert RuleCycles.Raises(rules[0], "tick");
    assert 0 in g && 0 in g[0];
    assert IsCycle(g, [0, 0]);
  }

  lemma UnitsAreOwnedAndUnique()
    ensures UniqueIds(UNITS) && OwnedIds(UNITS) && Registers(BASELINE, UNITS)
  {
    assert forall p :: Has(UNITS, p) <==> p == Place(1, 0, 0);
    assert Has(UNITS, Place(1, 0, 0)) && DefAt(UNITS, Place(1, 0, 0)) == QUIET_RULE;
  }

  lemma PatchHasNoFault()
    ensures FirstFaultIn(PACKAGES, BASELINE, ORDER).None?
    ensures (forall m :: m in ORDER ==> m in PACKAGES) && ReplacementLog(PACKAGES, ORDER) == [LOUD_RULE]
  {
    assert ORDER[..1] == [1] && [1][..0] == [];
    assert forall m :: m in ORDER ==> m in PACKAGES;
    var none: seq<PatchDeclaration> := [];
    assert [PATCH][..0] == none;
    assert Sort(none, PatchRank) == none && Sort([PATCH], PatchRank) == [PATCH];
    assert Depends(PATCHING, 1) by {
      assert PATCHING.dependencies[0].modId == 1;
    }
    assert PatchFault(PACKAGES, BASELINE, PATCHING, PATCH).None?;
    assert FirstPatchFault(PACKAGES, BASELINE, PATCHING, [PATCH]).None?;
    assert FirstFaultIn(PACKAGES, BASELINE, [1]).None?;
    OnePatch(PATCHING, PATCH);
    NoPatch(PATCHED);
    assert ReplacementLog(PACKAGES, [1]) == [];
  }

  lemma NoPatch(package: Package)
    ensures PatchLog(package, []) == []
  {}

  lemma OnePatch(package: Package, patch: PatchDeclaration)
    ensures PatchLog(package, [patch]) == Replacements(package, patch)
  {
    NoPatch(package);
    assert [patch][..0] == [];
  }

  /** Everything up to the second build goes through, and the compilation fails there. */
  lemma OnlySecondBuildFails()
    ensures UniqueIds(UNITS) && OwnedIds(UNITS) && SoundUnits(CHECKS, UNITS)
    ensures Registers(BASELINE, UNITS) && FirstFaultIn(PACKAGES, BASELINE, ORDER).None?
    ensures (forall m :: m in ORDER ==> m in PACKAGES)
      && RegistersLatest(RESULT, UNITS, ReplacementLog(PACKAGES, ORDER))
    ensures !Sound(CHECKS, RESULT) && !Compiles(CHECKS, PACKAGES, ORDER, UNITS)
  {
    BaselineIsSound();
    UnitsAreOwnedAndUnique();
    PatchHasNoFault();
    ResultIsUnsound();
    hide Sound, UniqueIds, FirstFaultIn, ReplacementLog;
    var place := Place(1, 0, 0);
    assert Has(UNITS, place) && DefAt(UNITS, place) == QUIET_RULE;
    assert Latest(QUIET_RULE, [LOUD_RULE]) == LOUD_RULE;
    forall patched | RegistersLatest(patched, UNITS, [LOUD_RULE])
      ensures patched == RESULT
    {
      assert patched[RULE_ID] == Registered(LOUD_RULE, 1);
      forall id | id in patched
        ensures id == RULE_ID
      {
        var p :| Has(UNITS, p) && DefAt(UNITS, p).id == id;
      }
    }
  }
}
