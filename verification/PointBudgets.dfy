/** Attribute point budgets, exact although summed in 64-bit integers. */
module PointBudgets {
  import opened Outcomes
  import opened Ordering
  import opened Numeric

  datatype Constraints = Constraints(
    minimum: map<nat, i64>, maximum: map<nat, i64>, maximumPoints: i64, maximumItems: nat, maximumSkills: nat,
    allowed: set<nat>)

  /** A generated draft or an authored character, as far as its budget goes. */
  datatype Build = Build(attributes: map<nat, i64>, conditions: seq<nat>, inventory: seq<nat>, skills: seq<nat>)

  datatype BudgetError =
    | InventoryBudget
    | SkillBudget
    | Schema
    | AllowedDefinitions
    | AttributeBound
    | AttributeRange
    | Points

  // ------------------------------------------------------------- exact sums

  predicate Ranged(c: Constraints, id: nat, value: i64) {
    id in c.minimum && id in c.maximum && c.minimum[id] <= value <= c.maximum[id]
  }

  ghost predicate AllRanged(c: Constraints, attributes: map<nat, i64>, ids: set<nat>)
    requires ids <= attributes.Keys
  {
    forall id :: id in ids ==> Ranged(c, id, attributes[id])
  }

  /** The exact sum of (value minus minimum). */
  ghost function Total(c: Constraints, attributes: map<nat, i64>, ids: set<nat>): nat
    requires ids <= attributes.Keys && AllRanged(c, attributes, ids)
  {
    if ids == {} then 0
    else
      var id :| id in ids;
      attributes[id] - c.minimum[id] + Total(c, attributes, ids - {id})
  }

  lemma {:induction false} TotalAround(c: Constraints, attributes: map<nat, i64>, ids: set<nat>, id: nat)
    requires ids <= attributes.Keys && AllRanged(c, attributes, ids) && id in ids
    ensures Total(c, attributes, ids) == attributes[id] - c.minimum[id] + Total(c, attributes, ids - {id})
  {
    var picked :| picked in ids
      && Total(c, attributes, ids) == attributes[picked] - c.minimum[picked] + Total(c, attributes, ids - {picked});
    if picked != id {
      TotalAround(c, attributes, ids - {picked}, id);
      TotalAround(c, attributes, ids - {id}, picked);
      assert ids - {picked} - {id} == ids - {id} - {picked};
    }
  }

  lemma {:induction false} TotalGrows(c: Constraints, attributes: map<nat, i64>, some: set<nat>, all: set<nat>)
    requires some <= all <= attributes.Keys && AllRanged(c, attributes, all)
    ensures Total(c, attributes, some) <= Total(c, attributes, all)
  {
    if some != all {
      assert all == some + (all - some);
      var id :| id in all - some;
      TotalAround(c, attributes, all, id);
      TotalGrows(c, attributes, some, all - {id});
    }
  }

  ghost predicate Affordable(c: Constraints, attributes: map<nat, i64>) {
    AllRanged(c, attributes, attributes.Keys) && Total(c, attributes, attributes.Keys) <= c.maximumPoints
  }

  /** The attribute loop: range checks and a checked sum, in ascending order. */
  method SpendPoints(c: Constraints, attributes: map<nat, i64>) returns (r: Result<i64, BudgetError>)
    requires c.maximumPoints >= 0
    ensures r.Ok? ==> AllRanged(c, attributes, attributes.Keys) && r.value == Total(c, attributes, attributes.Keys)
    // Leaving early never turns away attributes that exact arithmetic would accept.
    ensures r.Err? ==> !Affordable(c, attributes)
    ensures r.Err? && r.error != Points ==> !AllRanged(c, attributes, attributes.Keys)
  {
    var points: i64 := 0;
    var rest := attributes.Keys;
    ghost var done: set<nat> := {};
    while rest != {}
      invariant done !! rest && done + rest == attributes.Keys
      invariant AllRanged(c, attributes, done) && points == Total(c, attributes, done)
      decreases rest
    {
      var id := Least(rest);
      var value := attributes[id];
      if id !in c.minimum || id !in c.maximum {
        assert !Ranged(c, id, value);
        return Err(AttributeBound);
      }
      if value < c.minimum[id] || value > c.maximum[id] {
        assert !Ranged(c, id, value);
        return Err(AttributeRange);
      }
      var spent := CheckedSub(value, c.minimum[id]);
      if spent.Err? {
        TooExpensive(c, attributes, done, id);
        return Err(Points);
      }
      var sum := CheckedAdd(points, spent.value);
      if sum.Err? {
        TooExpensive(c, attributes, done, id);
        return Err(Points);
      }
      points := sum.value;
      AddOne(c, attributes, done, id);
      rest, done := rest - {id}, done + {id};
    }
    assert done == attributes.Keys;
    return Ok(points);
  }

  lemma AddOne(c: Constraints, attributes: map<nat, i64>, done: set<nat>, id: nat)
    requires done <= attributes.Keys && id in attributes && id !in done
    requires AllRanged(c, attributes, done) && Ranged(c, id, attributes[id])
    ensures AllRanged(c, attributes, done + {id})
    ensures Total(c, attributes, done + {id}) == Total(c, attributes, done) + attributes[id] - c.minimum[id]
  {
    TotalAround(c, attributes, done + {id}, id);
    assert done + {id} - {id} == done;
  }

  /** A partial sum beyond the integer range is beyond every budget. */
  lemma TooExpensive(c: Constraints, attributes: map<nat, i64>, done: set<nat>, id: nat)
    requires done <= attributes.Keys && id in attributes && id !in done
    requires AllRanged(c, attributes, done) && Ranged(c, id, attributes[id])
    requires Total(c, attributes, done) + attributes[id] - c.minimum[id] > 0x7FFF_FFFF_FFFF_FFFF
    ensures !Affordable(c, attributes)
  {
    if AllRanged(c, attributes, attributes.Keys) {
      AddOne(c, attributes, done, id);
      TotalGrows(c, attributes, done + {id}, attributes.Keys);
    }
  }

  // ---------------------------------------------------------- the validators

  predicate SchemaOk(c: Constraints) {
    && c.maximumPoints >= 0
    && (forall id :: id in c.minimum ==> id in c.maximum && c.minimum[id] <= c.maximum[id])
    && (forall id :: id in c.maximum ==> id in c.minimum)
  }

  predicate OnlyAllowed(c: Constraints, b: Build) {
    && (forall i :: 0 <= i < |b.conditions| ==> b.conditions[i] in c.allowed)
    && (forall i :: 0 <= i < |b.inventory| ==> b.inventory[i] in c.allowed)
    && (forall i :: 0 <= i < |b.skills| ==> b.skills[i] in c.allowed)
  }

  predicate Structured(c: Constraints, b: Build) {
    |b.inventory| <= c.maximumItems && |b.skills| <= c.maximumSkills && SchemaOk(c) && OnlyAllowed(c, b)
  }

  /** Within the numbers allowed, with matching bounds the right way round, and nothing but what is allowed. */
  lemma StructuredExactly(c: Constraints, b: Build)
    ensures Structured(c, b) <==>
      && |b.inventory| <= c.maximumItems && |b.skills| <= c.maximumSkills && c.maximumPoints >= 0
      && c.minimum.Keys == c.maximum.Keys && (forall id :: id in c.minimum ==> c.minimum[id] <= c.maximum[id])
      && (forall id :: id in b.conditions || id in b.inventory || id in b.skills ==> id in c.allowed)
  {
    assert c.minimum.Keys == c.maximum.Keys <==>
      forall id :: id in c.minimum <==> id in c.maximum;
  }

  /** `validate_draft_budget`: accepted exactly when structured and affordable. */
  method ValidateDraftBudget(c: Constraints, b: Build) returns (r: Result<(), BudgetError>)
    ensures r.Ok? <==> Structured(c, b) && Affordable(c, b.attributes)
    ensures r == Err(Points) ==> Structured(c, b) && !Affordable(c, b.attributes)
  {
    if |b.inventory| > c.maximumItems {
      return Err(InventoryBudget);
    }
    if |b.skills| > c.maximumSkills {
      return Err(SkillBudget);
    }
    if !SchemaOk(c) {
      return Err(Schema);
    }
    if !OnlyAllowed(c, b) {
      return Err(AllowedDefinitions);
    }
    var points := SpendPoints(c, b.attributes);
    if points.Err? {
      return Err(points.error);
    }
    return if points.value > c.maximumPoints then Err(Points) else Ok(());
  }

  /** The budget part of `validate_character`: the same verdict, reached in another order. */
  method ValidateSpawnConstraints(c: Constraints, b: Build) returns (r: Result<(), BudgetError>)
    ensures r.Ok? <==> Structured(c, b) && Affordable(c, b.attributes)
  {
    if |b.inventory| > c.maximumItems || |b.skills| > c.maximumSkills || c.maximumPoints < 0 || !OnlyAllowed(c, b) {
      return Err(AllowedDefinitions);
    }
    if !SchemaOk(c) {
      return Err(Schema);
    }
    var points := SpendPoints(c, b.attributes);
    if points.Err? {
      return Err(points.error);
    }
    return if points.value > c.maximumPoints then Err(Points) else Ok(());
  }
}
