/**
 * Typed records, their durable envelopes, versioned record operations and the
 * replay that rebuilds a record set from a checkpoint.
 *
 * Identifiers are ordered opaque values (naturals). A payload's JSON codec is
 * an inverse pair, so an envelope carries the record itself.
 */
module Records {
  import opened Outcomes
  import opened Ordering

  type Revision = nat
  type ActionId = nat
  type EventId = nat
  type ActorId = nat

  const SCHEMA_V1: nat := 1

  datatype Transcript = Transcript(
    id: nat, revision: Option<Revision>, committed: bool, supporting: seq<EventId>, text: nat)

  /** The record kinds persistence treats specially, and every other kind. */
  datatype DomainRecord =
    | WorldState(worldId: nat, state: nat)
    | TranscriptItem(transcript: Transcript)
    | Other(kind: nat, id: nat, body: nat, wellFormed: bool)

  datatype RecordKey = RecordKey(recordType: nat, recordId: nat)

  const WORLD_STATE_TYPE: nat := 0
  const TRANSCRIPT_TYPE: nat := 1

  function KeyOf(record: DomainRecord): RecordKey {
    match record
    case WorldState(id, _) => RecordKey(WORLD_STATE_TYPE, id)
    case TranscriptItem(t) => RecordKey(TRANSCRIPT_TYPE, t.id)
    case Other(kind, id, _, _) => RecordKey(kind + 2, id)
  }

  function KeyRank(key: RecordKey): Rank {
    (key.recordType, key.recordId)
  }

  predicate ValidTranscript(t: Transcript) {
    && (t.committed ==> t.revision.Some?)
    && (forall i, j :: 0 <= i < j < |t.supporting| ==> t.supporting[i] != t.supporting[j])
  }

  predicate ValidRecord(record: DomainRecord) {
    match record
    case WorldState(_, _) => true
    case TranscriptItem(t) => ValidTranscript(t)
    case Other(_, _, _, wellFormed) => wellFormed
  }

  datatype Envelope = Envelope(
    key: RecordKey, schema: nat, revision: Revision, payload: DomainRecord, provenance: Option<ActionId>)

  function ToEnvelope(record: DomainRecord, revision: Revision, provenance: Option<ActionId>): Envelope {
    Envelope(KeyOf(record), SCHEMA_V1, revision, record, provenance)
  }

  /** `DomainRecord::from_envelope` succeeds on exactly these envelopes. */
  predicate Decodable(envelope: Envelope) {
    && envelope.schema == SCHEMA_V1
    && KeyOf(envelope.payload) == envelope.key
    && ValidRecord(envelope.payload)
  }

  type RecordSet = map<RecordKey, Envelope>

  predicate DecodableSet(records: RecordSet) {
    forall k :: k in records ==> records[k].key == k && Decodable(records[k])
  }

  function Decoded(records: RecordSet): map<RecordKey, DomainRecord> {
    map k | k in records :: records[k].payload
  }

  datatype Mutation = Upsert(record: Envelope) | Delete(key: RecordKey)

  datatype Op = Op(revision: Revision, actionId: ActionId, order: nat, mutation: Mutation)

  function MutationKey(mutation: Mutation): RecordKey {
    match mutation
    case Upsert(record) => record.key
    case Delete(key) => key
  }

  datatype RecordError =
    | RevisionOverflow
    | RevisionGap(previous: Revision)
    | InvalidOperationOrder(revision: Revision, expected: nat)
    | ActionChanged(changed: Revision)
    | EnvelopeRevisionMismatch
    | DuplicateCheckpointRecord(duplicate: RecordKey)
    | DeleteMissingRecord(missing: RecordKey)

  // ---------------------------------------------------------------- replay

  /** The loop variables of `rebuild_records`. */
  datatype ReplayState = ReplayState(
    revision: Revision, action: Option<ActionId>, expectedOrder: nat, records: RecordSet)

  /** Accept or reject the position of one operation, before its mutation. */
  function Admit(s: ReplayState, op: Op): Result<ReplayState, RecordError> {
    if op.revision != s.revision && s.revision >= U64_MAX then
      Err(RevisionOverflow)
    else if op.revision != s.revision && op.revision != s.revision + 1 then
      Err(RevisionGap(s.revision))
    else if op.revision == s.revision && s.action.None? then
      Err(RevisionGap(s.revision))
    else
      var entered := if op.revision != s.revision
        then ReplayState(op.revision, Some(op.actionId), 0, s.records)
        else s;
      if entered.action != Some(op.actionId) then
        Err(ActionChanged(entered.revision))
      else if op.order != entered.expectedOrder then
        Err(InvalidOperationOrder(entered.revision, entered.expectedOrder))
      else if entered.expectedOrder >= U32_MAX then
        Err(InvalidOperationOrder(entered.revision, U32_MAX))
      else
        Ok(entered.(expectedOrder := entered.expectedOrder + 1))
  }

  function Mutate(records: RecordSet, mutation: Mutation): RecordSet {
    match mutation
    case Upsert(record) => records[record.key := record]
    case Delete(key) => records - {key}
  }

  function ReplayOne(s: ReplayState, op: Op): Result<ReplayState, RecordError> {
    var admitted := Admit(s, op);
    if admitted.Err? then
      admitted
    else
      match op.mutation
      case Upsert(record) =>
        if record.revision != admitted.value.revision then Err(EnvelopeRevisionMismatch)
        else Ok(admitted.value.(records := Mutate(admitted.value.records, op.mutation)))
      case Delete(key) =>
        if key !in admitted.value.records then Err(DeleteMissingRecord(key))
        else Ok(admitted.value.(records := Mutate(admitted.value.records, op.mutation)))
  }

  function Replay(s: ReplayState, ops: seq<Op>): Result<ReplayState, RecordError>
    decreases |ops|
  {
    if ops == [] then
      Ok(s)
    else
      var next := ReplayOne(s, ops[0]);
      if next.Err? then next else Replay(next.value, ops[1..])
  }

  function SeedRecords(checkpointRevision: Revision, checkpoint: seq<Envelope>, seeded: RecordSet):
    Result<RecordSet, RecordError>
  {
    if checkpoint == [] then
      Ok(seeded)
    else if checkpoint[0].revision > checkpointRevision then
      Err(EnvelopeRevisionMismatch)
    else if checkpoint[0].key in seeded then
      Err(DuplicateCheckpointRecord(checkpoint[0].key))
    else
      SeedRecords(checkpointRevision, checkpoint[1..], seeded[checkpoint[0].key := checkpoint[0]])
  }

  function Rebuilt(checkpointRevision: Revision, checkpoint: seq<Envelope>, ops: seq<Op>):
    Result<(Revision, RecordSet), RecordError>
  {
    var seeded := SeedRecords(checkpointRevision, checkpoint, map[]);
    if seeded.Err? then
      Err(seeded.error)
    else
      var end := Replay(ReplayState(checkpointRevision, None, 0, seeded.value), ops);
      if end.Err? then Err(end.error) else Ok((end.value.revision, end.value.records))
  }

  /** `rebuild_records`: one pass over the checkpoint, one over the operations. */
  method RebuildRecords(checkpointRevision: Revision, checkpoint: seq<Envelope>, ops: seq<Op>)
    returns (r: Result<(Revision, RecordSet), RecordError>)
    ensures r == Rebuilt(checkpointRevision, checkpoint, ops)
  {
    var records: RecordSet := map[];
    for i := 0 to |checkpoint|
      invariant SeedRecords(checkpointRevision, checkpoint[i..], records)
             == SeedRecords(checkpointRevision, checkpoint, map[])
    {
      var record := checkpoint[i];
      assert checkpoint[i..][1..] == checkpoint[i + 1..];
      if record.revision > checkpointRevision {
        return Err(EnvelopeRevisionMismatch);
      }
      if record.key in records {
        return Err(DuplicateCheckpointRecord(record.key));
      }
      records := records[record.key := record];
    }

    var currentRevision: Revision := checkpointRevision;
    var currentAction: Option<ActionId> := None;
    var expectedOrder: nat := 0;
    ghost var start := ReplayState(checkpointRevision, None, 0, records);
    for i := 0 to |ops|
      invariant Replay(ReplayState(currentRevision, currentAction, expectedOrder, records), ops[i..])
             == Replay(start, ops)
    {
      var operation := ops[i];
      assert ops[i..][0] == operation && ops[i..][1..] == ops[i + 1..];
      if operation.revision != currentRevision {
        if currentRevision >= U64_MAX {
          return Err(RevisionOverflow);
        }
        if operation.revision != currentRevision + 1 {
          return Err(RevisionGap(currentRevision));
        }
        currentRevision := operation.revision;
        currentAction := Some(operation.actionId);
        expectedOrder := 0;
      } else if currentAction.None? {
        return Err(RevisionGap(currentRevision));
      }
      if currentAction != Some(operation.actionId) {
        return Err(ActionChanged(currentRevision));
      }
      if operation.order != expectedOrder {
        return Err(InvalidOperationOrder(currentRevision, expectedOrder));
      }
      if expectedOrder >= U32_MAX {
        return Err(InvalidOperationOrder(currentRevision, U32_MAX));
      }
      expectedOrder := expectedOrder + 1;
      match operation.mutation
      case Upsert(record) =>
        if record.revision != currentRevision {
          return Err(EnvelopeRevisionMismatch);
        }
        records := records[record.key := record];
      case Delete(key) =>
        if key !in records {
          return Err(DeleteMissingRecord(key));
        }
        records := records - {key};
    }
    return Ok((currentRevision, records));
  }

  // ------------------------------------------------- what replay preserves

  lemma {:induction false} ReplaySplits(s: ReplayState, a: seq<Op>, b: seq<Op>)
    ensures Replay(s, a + b)
         == var first := Replay(s, a); if first.Err? then first else Replay(first.value, b)
    decreases |a|
  {
    if a == [] {
      assert a + b == b;
    } else {
      assert (a + b)[0] == a[0] && (a + b)[1..] == a[1..] + b;
      var next := ReplayOne(s, a[0]);
      if next.Ok? {
        ReplaySplits(next.value, a[1..], b);
      }
    }
  }

  /** The operations one committed action writes at its revision. */
  ghost predicate Block(ops: seq<Op>, revision: Revision, action: ActionId) {
    && ops != []
    && (forall i :: 0 <= i < |ops| ==>
          && ops[i].revision == revision && ops[i].actionId == action && ops[i].order == i
          && (ops[i].mutation.Upsert? ==> ops[i].mutation.record.revision == revision))
  }

  ghost predicate DistinctKeys(ops: seq<Op>) {
    forall i, j :: 0 <= i < j < |ops| ==> MutationKey(ops[i].mutation) != MutationKey(ops[j].mutation)
  }

  ghost predicate DeletesLive(keys: set<RecordKey>, ops: seq<Op>) {
    forall i :: 0 <= i < |ops| && ops[i].mutation.Delete? ==> ops[i].mutation.key in keys
  }

  /** The record set after a list of operations, whatever their numbering. */
  function AfterOps(records: RecordSet, ops: seq<Op>): RecordSet
    decreases |ops|
  {
    if ops == [] then records else AfterOps(Mutate(records, ops[0].mutation), ops[1..])
  }

  lemma {:induction false} AfterOpsSplits(records: RecordSet, a: seq<Op>, b: seq<Op>)
    ensures AfterOps(records, a + b) == AfterOps(AfterOps(records, a), b)
    decreases |a|
  {
    if a == [] {
      assert a + b == b;
    } else {
      assert (a + b)[0] == a[0] && (a + b)[1..] == a[1..] + b;
      AfterOpsSplits(Mutate(records, a[0].mutation), a[1..], b);
    }
  }

  /** With distinct keys every operation acts on the original record set. */
  lemma {:induction false} AfterOpsPointwise(records: RecordSet, ops: seq<Op>, k: RecordKey)
    requires DistinctKeys(ops)
    ensures (forall i :: 0 <= i < |ops| ==> MutationKey(ops[i].mutation) != k)
      ==> (k in AfterOps(records, ops) <==> k in records)
          && (k in records ==> AfterOps(records, ops)[k] == records[k])
    ensures forall i :: 0 <= i < |ops| && MutationKey(ops[i].mutation) == k ==>
      match ops[i].mutation
      case Upsert(record) => k in AfterOps(records, ops) && AfterOps(records, ops)[k] == record
      case Delete(_) => k !in AfterOps(records, ops)
    decreases |ops|
  {
    if ops != [] {
      var rest := ops[1..];
      forall i, j | 0 <= i < j < |rest|
        ensures MutationKey(rest[i].mutation) != MutationKey(rest[j].mutation)
      {
        assert rest[i] == ops[i + 1] && rest[j] == ops[j + 1];
      }
      AfterOpsPointwise(Mutate(records, ops[0].mutation), rest, k);
      forall i | 0 <= i < |ops| && MutationKey(ops[i].mutation) == k
        ensures match ops[i].mutation
                case Upsert(record) => k in AfterOps(records, ops) && AfterOps(records, ops)[k] == record
                case Delete(_) => k !in AfterOps(records, ops)
      {
        if i > 0 {
          assert rest[i - 1] == ops[i];
        } else {
          assert forall j :: 0 <= j < |rest| ==> rest[j] == ops[j + 1];
        }
      }
      if forall i :: 0 <= i < |ops| ==> MutationKey(ops[i].mutation) != k {
        assert forall j :: 0 <= j < |rest| ==> rest[j] == ops[j + 1];
      }
    }
  }

  /**
   * Replaying the tail of a block from the middle. The order counter is a
   * `u32` that must be incremented after every operation, so a block is
   * replayed exactly when it holds at most `U32_MAX` operations.
   */
  lemma {:induction false} ReplayBlockFrom(s: ReplayState, ops: seq<Op>, i: nat, revision: Revision, action: ActionId)
    requires i <= |ops|
    requires Block(ops, revision, action) && DistinctKeys(ops)
    requires i == 0 ==> s.revision + 1 == revision && s.revision < U64_MAX
    requires i > 0 ==> s.revision == revision && s.action == Some(action) && s.expectedOrder == i <= U32_MAX
    requires DeletesLive(s.records.Keys, ops[i..])
    ensures |ops| <= U32_MAX ==>
      Replay(s, ops[i..]) == Ok(ReplayState(revision, Some(action), |ops|, AfterOps(s.records, ops[i..])))
    ensures |ops| > U32_MAX ==> Replay(s, ops[i..]) == Err(InvalidOperationOrder(revision, U32_MAX))
    decreases |ops| - i
  {
    if i < |ops| {
      var op := ops[i];
      assert ops[i..][0] == op && ops[i..][1..] == ops[i + 1..];
      if i < U32_MAX {
        var next := ReplayOne(s, op);
        assert op.mutation.Delete? ==> ops[i..][0].mutation.key in s.records;
        assert next.Ok?;
        var tail := ops[i + 1..];
        forall j | 0 <= j < |tail| && tail[j].mutation.Delete?
          ensures tail[j].mutation.key in next.value.records
        {
          assert tail[j] == ops[i..][j + 1] == ops[i + 1 + j];
          assert MutationKey(op.mutation) != MutationKey(ops[i + 1 + j].mutation);
        }
        ReplayBlockFrom(next.value, ops, i + 1, revision, action);
      }
    }
  }

  /** One committed block advances the replay by one revision. */
  lemma ReplayBlock(s: ReplayState, ops: seq<Op>, revision: Revision, action: ActionId)
    requires Block(ops, revision, action) && DistinctKeys(ops) && DeletesLive(s.records.Keys, ops)
    requires s.revision + 1 == revision && s.revision < U64_MAX
    ensures |ops| <= U32_MAX ==>
      Replay(s, ops) == Ok(ReplayState(revision, Some(action), |ops|, AfterOps(s.records, ops)))
    ensures |ops| > U32_MAX ==> Replay(s, ops) == Err(InvalidOperationOrder(revision, U32_MAX))
  {
    assert ops[0..] == ops;
    ReplayBlockFrom(s, ops, 0, revision, action);
  }

  /** Operations with distinct keys are not replayed if one deletes a missing record. */
  lemma {:induction false} MissingDelete(s: ReplayState, ops: seq<Op>, i: nat)
    requires DistinctKeys(ops) && i < |ops|
    requires ops[i].mutation.Delete? && ops[i].mutation.key !in s.records
    ensures Replay(s, ops).Err?
    decreases |ops|
  {
    var next := ReplayOne(s, ops[0]);
    if i > 0 && next.Ok? {
      assert MutationKey(ops[0].mutation) != MutationKey(ops[i].mutation);
      assert ops[1..][i - 1] == ops[i];
      MissingDelete(next.value, ops[1..], i - 1);
    }
  }

  /** Replay succeeds only on contiguous revisions and contiguous orders. */
  lemma {:induction false} ReplayContiguous(s: ReplayState, ops: seq<Op>)
    requires Replay(s, ops).Ok?
    ensures s.revision <= Replay(s, ops).value.revision
    ensures forall i :: 0 <= i < |ops| ==> s.revision <= ops[i].revision <= Replay(s, ops).value.revision
    ensures forall i :: 0 < i < |ops| ==>
      || (ops[i].revision == ops[i - 1].revision && ops[i].actionId == ops[i - 1].actionId
          && ops[i].order == ops[i - 1].order + 1)
      || (ops[i].revision == ops[i - 1].revision + 1 && ops[i].order == 0)
    ensures ops != [] && s.action.None? ==> ops[0].revision == s.revision + 1 && ops[0].order == 0
    decreases |ops|
  {
    if ops != [] {
      var next := ReplayOne(s, ops[0]).value;
      ReplayContiguous(next, ops[1..]);
      assert next.revision == ops[0].revision && next.action == Some(ops[0].actionId)
          && next.expectedOrder == ops[0].order + 1;
      forall i | 0 < i < |ops|
        ensures || (ops[i].revision == ops[i - 1].revision && ops[i].actionId == ops[i - 1].actionId
                    && ops[i].order == ops[i - 1].order + 1)
                || (ops[i].revision == ops[i - 1].revision + 1 && ops[i].order == 0)
      {
        if i > 1 {
          assert ops[1..][i - 1] == ops[i] && ops[1..][i - 2] == ops[i - 1];
        } else {
          assert ops[1..][0] == ops[1];
          assert Admit(next, ops[1]).Ok?;
        }
      }
      forall i | 0 <= i < |ops|
        ensures s.revision <= ops[i].revision <= Replay(s, ops).value.revision
      {
        if i > 0 {
          assert ops[1..][i - 1] == ops[i];
        }
      }
    }
  }

  // ----------------------------------------------------------- checkpoints

  /** Seeding accepts distinct keys at or below the checkpoint's revision. */
  lemma {:induction false} SeedAccepts(revision: Revision, checkpoint: seq<Envelope>, seeded: RecordSet)
    requires forall i :: 0 <= i < |checkpoint| ==> checkpoint[i].revision <= revision
    requires forall i, j :: 0 <= i < j < |checkpoint| ==> checkpoint[i].key != checkpoint[j].key
    requires forall i :: 0 <= i < |checkpoint| ==> checkpoint[i].key !in seeded
    ensures SeedRecords(revision, checkpoint, seeded).Ok?
    ensures var r := SeedRecords(revision, checkpoint, seeded).value;
      && (forall i :: 0 <= i < |checkpoint| ==> checkpoint[i].key in r && r[checkpoint[i].key] == checkpoint[i])
      && (forall k :: k in seeded ==> k in r && r[k] == seeded[k])
      && (forall k :: k in r ==> k in seeded || exists i :: 0 <= i < |checkpoint| && checkpoint[i].key == k)
  {
    if checkpoint != [] {
      var head := checkpoint[0];
      var rest := checkpoint[1..];
      assert forall i :: 0 <= i < |rest| ==> rest[i] == checkpoint[i + 1];
      var seeded' := seeded[head.key := head];
      SeedAccepts(revision, rest, seeded');
      var r := SeedRecords(revision, rest, seeded').value;
      forall i | 0 <= i < |checkpoint|
        ensures checkpoint[i].key in r && r[checkpoint[i].key] == checkpoint[i]
      {
        if i > 0 {
          assert checkpoint[i] == rest[i - 1];
        }
      }
      forall k | k in r
        ensures k in seeded || exists i :: 0 <= i < |checkpoint| && checkpoint[i].key == k
      {
        if k !in seeded' {
          var i :| 0 <= i < |rest| && rest[i].key == k;
          assert checkpoint[i + 1].key == k;
        } else if k == head.key {
          assert checkpoint[0].key == k;
        }
      }
    }
  }
}
