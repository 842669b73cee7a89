/** Commands, events and the change set an executed command produces. */
module ChangeSets {
  import opened Outcomes
  import opened Ordering
  import opened Records

  datatype Command = Command(actionId: ActionId, actorId: ActorId, expectedRevision: Revision, kind: nat)

  datatype Event = Event(id: EventId, actionId: ActionId, actorId: ActorId, revision: Revision, kind: nat)

  datatype ChangeSet = ChangeSet(
    actionId: ActionId, expectedRevision: Revision, revision: Revision,
    upserts: seq<DomainRecord>, deletes: seq<RecordKey>, events: seq<Event>, summary: nat)

  datatype DomainError = DuplicateRecord | InvalidRecord | OperationCount

  const MAX_OPERATIONS: nat := U32_MAX + 1

  function MutationRank(mutation: Mutation): Rank {
    KeyRank(MutationKey(mutation))
  }

  /** The unsorted mutations, upserts first, in listing order. */
  function Mutations(c: ChangeSet): seq<Mutation> {
    seq(|c.upserts|, i requires 0 <= i < |c.upserts| => Upsert(ToEnvelope(c.upserts[i], c.revision, Some(c.actionId))))
    + seq(|c.deletes|, i requires 0 <= i < |c.deletes| => Delete(c.deletes[i]))
  }

  function Number(c: ChangeSet, mutations: seq<Mutation>): seq<Op> {
    seq(|mutations|, i requires 0 <= i < |mutations| => Op(c.revision, c.actionId, i, mutations[i]))
  }

  ghost predicate DistinctMutations(mutations: seq<Mutation>) {
    forall i, j :: 0 <= i < j < |mutations| ==> MutationKey(mutations[i]) != MutationKey(mutations[j])
  }

  ghost predicate ValidUpserts(c: ChangeSet) {
    forall i :: 0 <= i < |c.upserts| ==> ValidRecord(c.upserts[i])
  }

  /** What `record_ops` accepts. */
  ghost predicate Expressible(c: ChangeSet) {
    DistinctMutations(Mutations(c)) && ValidUpserts(c) && |Mutations(c)| <= MAX_OPERATIONS
  }

  function OpsOf(c: ChangeSet): seq<Op> {
    Number(c, Sort(Mutations(c), MutationRank))
  }

  /**
   * `ExecutionChangeSet::record_ops`: collect with a duplicate check, sort by
   * stable key, number the result.
   */
  method RecordOps(c: ChangeSet) returns (r: Result<seq<Op>, DomainError>)
    ensures r.Ok? <==> Expressible(c)
    ensures r.Ok? ==> r.value == OpsOf(c)
    ensures r == Err(DuplicateRecord) ==> !DistinctMutations(Mutations(c))
    ensures r == Err(InvalidRecord) ==> !ValidUpserts(c)
    ensures r == Err(OperationCount) ==> |Mutations(c)| > MAX_OPERATIONS
  {
    var mutations: seq<Mutation> := [];
    var seen: set<RecordKey> := {};
    ghost var all := Mutations(c);
    for i := 0 to |c.upserts|
      invariant mutations == all[..i] && seen == set m | m in mutations :: MutationKey(m)
      invariant DistinctMutations(mutations)
      invariant forall j :: 0 <= j < i ==> ValidRecord(c.upserts[j])
    {
      var record := c.upserts[i];
      var key := KeyOf(record);
      assert MutationKey(all[i]) == key;
      if key in seen {
        ghost var m :| m in mutations && MutationKey(m) == key;
        ghost var j :| 0 <= j < i && all[j] == m;
        assert MutationKey(all[j]) == MutationKey(all[i]);
        return Err(DuplicateRecord);
      }
      if !ValidRecord(record) {
        return Err(InvalidRecord);
      }
      seen := seen + {key};
      mutations := mutations + [Upsert(ToEnvelope(record, c.revision, Some(c.actionId)))];
    }
    for i := 0 to |c.deletes|
      invariant mutations == all[..|c.upserts| + i] && seen == set m | m in mutations :: MutationKey(m)
      invariant DistinctMutations(mutations)
    {
      var key := c.deletes[i];
      var at := |c.upserts| + i;
      assert MutationKey(all[at]) == key;
      if key in seen {
        ghost var m :| m in mutations && MutationKey(m) == key;
        ghost var j :| 0 <= j < at && all[j] == m;
        assert MutationKey(all[j]) == MutationKey(all[at]);
        return Err(DuplicateRecord);
      }
      seen := seen + {key};
      mutations := mutations + [Delete(key)];
    }
    assert mutations == all;
    mutations := Sort(mutations, MutationRank);
    SortMembers(all, MutationRank);
    if |mutations| > MAX_OPERATIONS {
      return Err(OperationCount);
    }
    return Ok(Number(c, mutations));
  }

  // ------------------------------------------------------ what the ops mean

  /** Old records minus the deletes plus the upserts. */
  ghost function Applied(prior: map<RecordKey, DomainRecord>, c: ChangeSet): map<RecordKey, DomainRecord> {
    map k | k in prior.Keys + UpsertKeys(c) && k !in c.deletes
      :: if k in UpsertKeys(c) then UpsertFor(c, k) else prior[k]
  }

  ghost function UpsertKeys(c: ChangeSet): set<RecordKey> {
    set i | 0 <= i < |c.upserts| :: KeyOf(c.upserts[i])
  }

  /** The upsert naming a key; unique when keys are distinct. */
  ghost function UpsertFor(c: ChangeSet, k: RecordKey): DomainRecord
    requires k in UpsertKeys(c)
    ensures UpsertFor(c, k) in c.upserts && KeyOf(UpsertFor(c, k)) == k
  {
    var i :| 0 <= i < |c.upserts| && KeyOf(c.upserts[i]) == k;
    c.upserts[i]
  }

  /** The numbered ops hold exactly the listed mutations, with distinct keys. */
  lemma OpsFacts(c: ChangeSet)
    requires Expressible(c)
    ensures |OpsOf(c)| == |c.upserts| + |c.deletes|
    ensures DistinctKeys(OpsOf(c))
    ensures forall m :: m in Mutations(c) <==> exists i :: 0 <= i < |OpsOf(c)| && OpsOf(c)[i].mutation == m
    ensures OpsOf(c) != [] ==> Block(OpsOf(c), c.revision, c.actionId)
  {
    var all := Mutations(c);
    var sorted := Sort(all, MutationRank);
    var ops := OpsOf(c);
    SortMembers(all, MutationRank);
    SortStrict(all, MutationRank);
    forall i, j | 0 <= i < j < |ops|
      ensures MutationKey(ops[i].mutation) != MutationKey(ops[j].mutation)
    {
      assert Before(MutationRank(sorted[i]), MutationRank(sorted[j]));
    }
    forall m
      ensures m in all <==> exists i :: 0 <= i < |ops| && ops[i].mutation == m
    {
      if m in all {
        var i :| 0 <= i < |sorted| && sorted[i] == m;
        assert ops[i].mutation == m;
      }
      if i :| 0 <= i < |ops| && ops[i].mutation == m {
        assert sorted[i] == m;
      }
    }
    forall i | 0 <= i < |ops| && ops[i].mutation.Upsert?
      ensures ops[i].mutation.record.revision == c.revision
    {
      assert sorted[i] in all;
    }
  }

  /** Operation `op` writes the record with the change set's revision and action. */
  ghost predicate WritesRecord(op: Op, c: ChangeSet, record: DomainRecord) {
    && op.mutation.Upsert?
    && var e := op.mutation.record;
       && e.key == KeyOf(record) && e.schema == 1 && e.revision == c.revision && e.payload == record
       && e.provenance == Some(c.actionId)
  }

  /** The operations ascend by key, are numbered from zero, and each writes or deletes what is listed. */
  lemma OpsContent(c: ChangeSet)
    requires Expressible(c)
    ensures var ops := OpsOf(c);
      && |ops| == |c.upserts| + |c.deletes|
      && (forall i :: 0 <= i < |ops| ==>
            ops[i].order == i && ops[i].revision == c.revision && ops[i].actionId == c.actionId)
      && (forall i, j :: 0 <= i < j < |ops| ==>
            var a, b := MutationKey(ops[i].mutation), MutationKey(ops[j].mutation);
            a.recordType < b.recordType || (a.recordType == b.recordType && a.recordId < b.recordId))
      && (forall i :: 0 <= i < |ops| ==>
            || (exists k :: 0 <= k < |c.upserts| && WritesRecord(ops[i], c, c.upserts[k]))
            || (exists k :: 0 <= k < |c.deletes| && ops[i].mutation == Delete(c.deletes[k])))
  {
    var all, ops := Mutations(c), OpsOf(c);
    var sorted := Sort(all, MutationRank);
    SortMembers(all, MutationRank);
    SortStrict(all, MutationRank);
    hide Sort;
    forall i | 0 <= i < |ops|
      ensures || (exists k :: 0 <= k < |c.upserts| && WritesRecord(ops[i], c, c.upserts[k]))
              || (exists k :: 0 <= k < |c.deletes| && ops[i].mutation == Delete(c.deletes[k]))
    {
      assert sorted[i] in all;
      var j :| 0 <= j < |all| && all[j] == sorted[i];
      if j < |c.upserts| {
        assert WritesRecord(ops[i], c, c.upserts[j]);
      } else {
        assert ops[i].mutation == Delete(c.deletes[j - |c.upserts|]);
      }
    }
    forall i, j | 0 <= i < j < |ops|
      ensures Before(KeyRank(MutationKey(ops[i].mutation)), KeyRank(MutationKey(ops[j].mutation)))
    {
      assert Before(MutationRank(sorted[i]), MutationRank(sorted[j]));
    }
  }

  lemma UpsertListed(c: ChangeSet, i: nat)
    requires i < |c.upserts|
    ensures Upsert(ToEnvelope(c.upserts[i], c.revision, Some(c.actionId))) in Mutations(c)
    ensures KeyOf(c.upserts[i]) in UpsertKeys(c)
  {
    assert Mutations(c)[i] == Upsert(ToEnvelope(c.upserts[i], c.revision, Some(c.actionId)));
  }

  lemma DeleteListed(c: ChangeSet, i: nat)
    requires i < |c.deletes|
    ensures Delete(c.deletes[i]) in Mutations(c)
  {
    assert Mutations(c)[|c.upserts| + i] == Delete(c.deletes[i]);
  }

  lemma MutationOrigin(c: ChangeSet, m: Mutation)
    requires m in Mutations(c)
    ensures m.Delete? ==> m.key in c.deletes
    ensures m.Upsert? ==>
      && m.record.payload in c.upserts
      && m.record == ToEnvelope(m.record.payload, c.revision, Some(c.actionId))
      && m.record.key in UpsertKeys(c)
  {
    var i :| 0 <= i < |Mutations(c)| && Mutations(c)[i] == m;
    if m.Upsert? {
      assert c.upserts[i] in c.upserts;
      UpsertListed(c, i);
    }
  }

  /** A change set's effect on one key, read through its ops. */
  lemma AppliedAt(c: ChangeSet, records: RecordSet, k: RecordKey)
    requires Expressible(c) && DecodableSet(records)
    ensures k in AfterOps(records, OpsOf(c)) <==> k in Applied(Decoded(records), c)
    ensures k in AfterOps(records, OpsOf(c)) ==>
      var e := AfterOps(records, OpsOf(c))[k];
      e.key == k && Decodable(e) && e.payload == Applied(Decoded(records), c)[k]
  {
    var ops := OpsOf(c);
    OpsFacts(c);
    AfterOpsPointwise(records, ops, k);
    if k in c.deletes {
      var d :| 0 <= d < |c.deletes| && c.deletes[d] == k;
      DeleteListed(c, d);
      var i :| 0 <= i < |ops| && ops[i].mutation == Delete(k);
      assert MutationKey(ops[i].mutation) == k;
    } else if k in UpsertKeys(c) {
      var record := UpsertFor(c, k);
      var u :| 0 <= u < |c.upserts| && c.upserts[u] == record;
      UpsertListed(c, u);
      var m := Upsert(ToEnvelope(record, c.revision, Some(c.actionId)));
      var i :| 0 <= i < |ops| && ops[i].mutation == m;
      assert MutationKey(ops[i].mutation) == k;
    } else {
      forall i | 0 <= i < |ops|
        ensures MutationKey(ops[i].mutation) != k
      {
        MutationOrigin(c, ops[i].mutation);
      }
    }
  }

  /**
   * Change-set meaning: replaying the ops of a change set over any record set
   * that holds the deleted keys gives old minus deletes plus upserts. The
   * replay accepts it exactly when it has at most `U32_MAX` operations.
   */
  lemma ChangeSetMeaning(c: ChangeSet, records: RecordSet, action: Option<ActionId>, order: nat)
    requires Expressible(c) && DecodableSet(records)
    requires c.upserts != [] || c.deletes != []
    requires c.revision == c.expectedRevision + 1 <= U64_MAX
    requires forall k :: k in c.deletes ==> k in records
    ensures var end := Replay(ReplayState(c.expectedRevision, action, order, records), OpsOf(c));
      && (end.Ok? <==> |c.upserts| + |c.deletes| <= U32_MAX)
      && (end.Ok? ==>
            && end.value.revision == c.revision
            && DecodableSet(end.value.records)
            && Decoded(end.value.records) == Applied(Decoded(records), c))
      && (end.Err? ==> end == Err(InvalidOperationOrder(c.revision, U32_MAX)))
  {
    hide OpsOf, AfterOps, Applied;
    var ops := OpsOf(c);
    var s := ReplayState(c.expectedRevision, action, order, records);
    OpsFacts(c);
    forall i | 0 <= i < |ops| && ops[i].mutation.Delete?
      ensures ops[i].mutation.key in records
    {
      MutationOrigin(c, ops[i].mutation);
    }
    ReplayBlock(s, ops, c.revision, c.actionId);
    forall k
      ensures k in AfterOps(records, ops) <==> k in Applied(Decoded(records), c)
      ensures k in AfterOps(records, ops) ==>
        var e := AfterOps(records, ops)[k];
        e.key == k && Decodable(e) && e.payload == Applied(Decoded(records), c)[k]
    {
      AppliedAt(c, records, k);
    }
  }

  /** The operations do not depend on the order in which changes are listed. */
  lemma ListingOrderIrrelevant(a: ChangeSet, b: ChangeSet)
    requires Expressible(a)
    requires a.revision == b.revision && a.actionId == b.actionId
    requires multiset(a.upserts) == multiset(b.upserts) && multiset(a.deletes) == multiset(b.deletes)
    ensures Expressible(b)
    ensures OpsOf(a) == OpsOf(b)
  {
    var left, right := Mutations(a), Mutations(b);
    SameMembers(a.upserts, b.upserts);
    SameMembers(a.deletes, b.deletes);
    assert |left| == |right|;
    forall m
      ensures m in left <==> m in right
    {
      SameMutation(a, b, m);
      SameMutation(b, a, m);
    }
    assert ValidUpserts(b) by {
      forall i | 0 <= i < |b.upserts|
        ensures ValidRecord(b.upserts[i])
      {
        assert b.upserts[i] in a.upserts;
      }
    }
    DistinctByCounting(left, right);
    SortStrict(left, MutationRank);
    SortStrict(right, MutationRank);
    SortMembers(left, MutationRank);
    SortMembers(right, MutationRank);
    StrictUnique(Sort(left, MutationRank), Sort(right, MutationRank), MutationRank);
  }

  lemma SameMembers<T>(a: seq<T>, b: seq<T>)
    requires multiset(a) == multiset(b)
    ensures |a| == |b| && forall x :: x in a <==> x in b
  {
    assert |multiset(a)| == |multiset(b)|;
    assert forall x :: x in a <==> x in multiset(a);
    assert forall x :: x in b <==> x in multiset(b);
  }

  lemma SameMutation(a: ChangeSet, b: ChangeSet, m: Mutation)
    requires a.revision == b.revision && a.actionId == b.actionId
    requires forall x :: x in a.upserts ==> x in b.upserts
    requires forall x :: x in a.deletes ==> x in b.deletes
    ensures m in Mutations(a) ==> m in Mutations(b)
  {
    if m in Mutations(a) {
      MutationOrigin(a, m);
      if m.Upsert? {
        var i :| 0 <= i < |b.upserts| && b.upserts[i] == m.record.payload;
        UpsertListed(b, i);
      } else {
        var i :| 0 <= i < |b.deletes| && b.deletes[i] == m.key;
        DeleteListed(b, i);
      }
    }
  }

  /** A list as long as a distinct-keyed list with the same members is distinct too. */
  lemma DistinctByCounting(a: seq<Mutation>, b: seq<Mutation>)
    requires DistinctMutations(a)
    requires |a| == |b| && forall m :: m in a <==> m in b
    ensures DistinctMutations(b)
  {
    var members := set m | m in a;
    assert members == set m | m in b;
    NoRepeats(a, members);
    ManyMembers(b, members);
    forall i, j | 0 <= i < j < |b|
      ensures MutationKey(b[i]) != MutationKey(b[j])
    {
      assert b[i] != b[j];
      assert b[i] in a && b[j] in a;
      var p :| 0 <= p < |a| && a[p] == b[i];
      var q :| 0 <= q < |a| && a[q] == b[j];
      assert p < q || q < p;
    }
  }

  lemma {:induction false} NoRepeats(a: seq<Mutation>, members: set<Mutation>)
    requires DistinctMutations(a) && members == set m | m in a
    ensures |members| == |a|
  {
    if a != [] {
      var rest := a[..|a| - 1];
      NoRepeats(rest, set m | m in rest);
      assert a == rest + [a[|a| - 1]];
      assert a[|a| - 1] !in rest;
      assert members == (set m | m in rest) + {a[|a| - 1]};
    }
  }

  lemma {:induction false} ManyMembers<T>(b: seq<T>, members: set<T>)
    requires members == set m | m in b
    ensures |members| <= |b|
    ensures |members| == |b| ==> forall i, j :: 0 <= i < j < |b| ==> b[i] != b[j]
  {
    if b != [] {
      var rest, last := b[..|b| - 1], b[|b| - 1];
      assert b == rest + [last];
      var fewer := set m | m in rest;
      ManyMembers(rest, fewer);
      assert members == fewer + {last};
    } else {
      assert members == {};
    }
  }
}
