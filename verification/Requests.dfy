/** Durable commit requests: how one is built from an execution and validated. */
module Requests {
  import opened Outcomes
  import opened Ordering
  import opened Records
  import opened ChangeSets

  datatype CommittedAction = CommittedAction(
    actionId: ActionId, revision: Revision, eventIds: seq<EventId>, summary: nat)

  datatype CommitRequest = CommitRequest(
    command: Command, recordOps: seq<Op>, events: seq<Event>, transcripts: seq<Transcript>,
    outcome: CommittedAction)

  datatype RequestError =
    | RevisionOverflowed
    | InvalidCommit
    | Domain(cause: DomainError)

  function EventIds(events: seq<Event>): seq<EventId> {
    seq(|events|, i requires 0 <= i < |events| => events[i].id)
  }

  predicate OpsMatch(ops: seq<Op>, actionId: ActionId, revision: Revision) {
    forall i :: 0 <= i < |ops| ==>
      && ops[i].actionId == actionId && ops[i].revision == revision && ops[i].order == i
      && (ops[i].mutation.Upsert? ==> ops[i].mutation.record.revision == revision)
  }

  predicate EventsMatch(events: seq<Event>, command: Command, revision: Revision) {
    forall i :: 0 <= i < |events| ==>
      && events[i].actionId == command.actionId && events[i].actorId == command.actorId
      && events[i].revision == revision
  }

  predicate UpsertsKey(ops: seq<Op>, key: RecordKey) {
    exists j :: 0 <= j < |ops| && ops[j].mutation.Upsert? && ops[j].mutation.record.key == key
  }

  predicate TranscriptsMatch(transcripts: seq<Transcript>, ops: seq<Op>, revision: Revision) {
    forall i :: 0 <= i < |transcripts| ==>
      && transcripts[i].revision == Some(revision)
      && UpsertsKey(ops, KeyOf(TranscriptItem(transcripts[i])))
  }

  /** `CommitRequest::validate`, in the order the checks run. */
  function Validate(r: CommitRequest): Result<(), RequestError> {
    var revision := r.command.expectedRevision + 1;
    if r.command.expectedRevision >= U64_MAX then
      Err(RevisionOverflowed)
    else if r.outcome.actionId != r.command.actionId || r.outcome.revision != revision then
      Err(InvalidCommit)
    else if r.recordOps == [] then
      Err(InvalidCommit)
    else if !OpsMatch(r.recordOps, r.command.actionId, revision) then
      Err(InvalidCommit)
    else if EventIds(r.events) != r.outcome.eventIds || !Distinct(EventIds(r.events)) then
      Err(InvalidCommit)
    else if !EventsMatch(r.events, r.command, revision) then
      Err(InvalidCommit)
    else if !TranscriptsMatch(r.transcripts, r.recordOps, revision) then
      Err(InvalidCommit)
    else
      Ok(())
  }

  predicate ValidRequest(r: CommitRequest) {
    Validate(r).Ok?
  }

  /** A valid request's ops are one contiguous, non-empty, single-action block. */
  lemma ValidRequestIsBlock(r: CommitRequest)
    requires ValidRequest(r)
    ensures r.command.expectedRevision + 1 <= U64_MAX
    ensures Block(r.recordOps, r.command.expectedRevision + 1, r.command.actionId)
    ensures r.outcome.revision == r.command.expectedRevision + 1
    ensures Distinct(EventIds(r.events)) && EventsMatch(r.events, r.command, r.command.expectedRevision + 1)
  {}

  /**
   * What a request must be to pass: one action at the revision after the one it
   * expects, with numbered operations, its own events, each once and named in
   * the outcome in order, and transcripts of that revision that it also upserts.
   */
  lemma ValidatesExactly(r: CommitRequest)
    ensures var action, revision := r.command.actionId, r.command.expectedRevision + 1;
      ValidRequest(r) <==>
        && revision <= U64_MAX
        && r.outcome.actionId == action && r.outcome.revision == revision
        && r.recordOps != []
        && (forall i :: 0 <= i < |r.recordOps| ==>
              var op := r.recordOps[i];
              && op.actionId == action && op.revision == revision && op.order == i
              && (op.mutation.Upsert? ==> op.mutation.record.revision == revision))
        && |r.outcome.eventIds| == |r.events|
        && (forall i :: 0 <= i < |r.events| ==>
              var e := r.events[i];
              && e.id == r.outcome.eventIds[i] && e.actionId == action && e.actorId == r.command.actorId
              && e.revision == revision)
        && (forall i, j :: 0 <= i < j < |r.events| ==> r.events[i].id != r.events[j].id)
        && (forall t :: t in r.transcripts ==>
              && t.revision == Some(revision)
              && exists j :: 0 <= j < |r.recordOps| && r.recordOps[j].mutation.Upsert?
                   && r.recordOps[j].mutation.record.key == RecordKey(TRANSCRIPT_TYPE, t.id))
    ensures Validate(r) == Err(RevisionOverflowed) <==> r.command.expectedRevision >= U64_MAX
  {
    var ids := EventIds(r.events);
    assert ids == r.outcome.eventIds <==>
      |r.outcome.eventIds| == |r.events| && forall i :: 0 <= i < |r.events| ==> r.events[i].id == r.outcome.eventIds[i];
    assert Distinct(ids) <==> forall i, j :: 0 <= i < j < |r.events| ==> r.events[i].id != r.events[j].id by {
      assert forall i :: 0 <= i < |r.events| ==> ids[i] == r.events[i].id;
    }
    TranscriptsMatchExactly(r.transcripts, r.recordOps, r.command.expectedRevision + 1);
    hide EventIds, Distinct, TranscriptsMatch;
  }

  lemma TranscriptsMatchExactly(transcripts: seq<Transcript>, ops: seq<Op>, revision: Revision)
    ensures TranscriptsMatch(transcripts, ops, revision) <==>
      forall t :: t in transcripts ==>
        && t.revision == Some(revision)
        && exists j :: 0 <= j < |ops| && ops[j].mutation.Upsert?
             && ops[j].mutation.record.key == RecordKey(TRANSCRIPT_TYPE, t.id)
  {
    forall t: Transcript
      ensures UpsertsKey(ops, KeyOf(TranscriptItem(t))) <==>
        exists j :: 0 <= j < |ops| && ops[j].mutation.Upsert?
          && ops[j].mutation.record.key == RecordKey(TRANSCRIPT_TYPE, t.id)
    {}
    hide UpsertsKey;
    forall i | 0 <= i < |transcripts|
      ensures transcripts[i] in transcripts
    {}
  }

  /** The transcripts among a list of records, in order. */
  function TranscriptsOf(records: seq<DomainRecord>): seq<Transcript> {
    if records == [] then
      []
    else if records[0].TranscriptItem? then
      [records[0].transcript] + TranscriptsOf(records[1..])
    else
      TranscriptsOf(records[1..])
  }

  lemma {:induction false} TranscriptsOfMembers(records: seq<DomainRecord>, t: Transcript)
    ensures t in TranscriptsOf(records) <==> TranscriptItem(t) in records
  {
    if records != [] {
      TranscriptsOfMembers(records[1..], t);
      assert TranscriptItem(t) in records <==> records[0] == TranscriptItem(t) || TranscriptItem(t) in records[1..];
    }
  }

  ghost predicate DistinctTranscripts(transcripts: seq<Transcript>) {
    forall i, j :: 0 <= i < j < |transcripts| ==> transcripts[i].id != transcripts[j].id
  }

  lemma {:induction false} TranscriptsOfDistinct(records: seq<DomainRecord>)
    requires forall i, j :: 0 <= i < j < |records| ==> KeyOf(records[i]) != KeyOf(records[j])
    ensures DistinctTranscripts(TranscriptsOf(records))
  {
    if records != [] {
      var rest := records[1..];
      assert forall i :: 0 <= i < |rest| ==> rest[i] == records[i + 1];
      TranscriptsOfDistinct(rest);
      if records[0].TranscriptItem? {
        forall j | 0 <= j < |TranscriptsOf(rest)|
          ensures TranscriptsOf(rest)[j].id != records[0].transcript.id
        {
          var t := TranscriptsOf(rest)[j];
          TranscriptsOfMembers(rest, t);
          var k :| 0 <= k < |rest| && rest[k] == TranscriptItem(t);
          assert KeyOf(records[0]) != KeyOf(records[k + 1]);
        }
      }
    }
  }

  /** The request `from_execution` assembles once the ops exist. */
  function Assemble(command: Command, c: ChangeSet): CommitRequest {
    CommitRequest(command, OpsOf(c), c.events, TranscriptsOf(c.upserts),
      CommittedAction(c.actionId, c.revision, EventIds(c.events), c.summary))
  }

  /** `CommitRequest::from_execution`. */
  method FromExecution(command: Command, c: ChangeSet) returns (r: Result<CommitRequest, RequestError>)
    ensures r.Ok? <==> Expressible(c) && ValidRequest(Assemble(command, c))
    ensures r.Ok? ==> r.value == Assemble(command, c)
    // The request is that of the command, and the outcome tells of these changes.
    ensures r.Ok? ==> r.value.command == command && r.value.events == c.events && r.value.recordOps == OpsOf(c)
    ensures r.Ok? ==> forall t :: t in r.value.transcripts <==> TranscriptItem(t) in c.upserts
    ensures r.Ok? ==> var outcome := r.value.outcome;
      && outcome.actionId == c.actionId && outcome.revision == c.revision && outcome.summary == c.summary
      && |outcome.eventIds| == |c.events| && forall i :: 0 <= i < |c.events| ==> outcome.eventIds[i] == c.events[i].id
    ensures !Expressible(c) ==> r.Err? && r.error.Domain?
    ensures r.Err? && Expressible(c) ==> r.error == Validate(Assemble(command, c)).error
  {
    var ops := RecordOps(c);
    if ops.Err? {
      return Err(Domain(ops.error));
    }
    var request := Assemble(command, c);
    var checked := Validate(request);
    if checked.Err? {
      return Err(checked.error);
    }
    forall t
      ensures t in request.transcripts <==> TranscriptItem(t) in c.upserts
    {
      TranscriptsOfMembers(c.upserts, t);
    }
    return Ok(request);
  }

  // ------------------------------------------------------ execution contract

  /**
   * What executing a command in the world promises about its change set, over
   * the world's records, the identity of the world and the events already used;
   * replay needs it to be no longer than a 32-bit order can count.
   */
  ghost predicate ExecutionContract(
    prior: map<RecordKey, DomainRecord>, worldId: nat, usedEvents: set<EventId>, command: Command, c: ChangeSet)
  {
    SoundChanges(prior, worldId, usedEvents, command, c) && |c.upserts| + |c.deletes| <= U32_MAX
  }

  ghost predicate SoundChanges(
    prior: map<RecordKey, DomainRecord>, worldId: nat, usedEvents: set<EventId>, command: Command, c: ChangeSet)
  {
    && c.actionId == command.actionId
    && c.expectedRevision == command.expectedRevision
    && c.revision == c.expectedRevision + 1 <= I64_MAX
    && (c.upserts != [] || c.deletes != [])
    && DistinctMutations(Mutations(c))
    && ValidUpserts(c)
    && (forall k :: k in c.deletes ==> k in prior && prior[k].Other?)
    && (forall r :: r in c.upserts && r.WorldState? ==> r.worldId == worldId)
    && (forall r :: r in c.upserts && r.TranscriptItem? ==> r.transcript.revision == Some(c.revision))
    && Distinct(EventIds(c.events))
    && (forall i :: 0 <= i < |c.events| ==>
          && c.events[i].actionId == command.actionId && c.events[i].actorId == command.actorId
          && c.events[i].revision == c.revision && c.events[i].id !in usedEvents)
  }

  lemma UpsertKeysDistinct(c: ChangeSet)
    requires DistinctMutations(Mutations(c))
    ensures forall i, j :: 0 <= i < j < |c.upserts| ==> KeyOf(c.upserts[i]) != KeyOf(c.upserts[j])
  {
    forall i, j | 0 <= i < j < |c.upserts|
      ensures KeyOf(c.upserts[i]) != KeyOf(c.upserts[j])
    {
      assert MutationKey(Mutations(c)[i]) == KeyOf(c.upserts[i]);
      assert MutationKey(Mutations(c)[j]) == KeyOf(c.upserts[j]);
    }
  }

  /** Under the execution contract `from_execution` cannot fail. */
  lemma ContractIsAccepted(
    prior: map<RecordKey, DomainRecord>, worldId: nat, usedEvents: set<EventId>, command: Command, c: ChangeSet)
    requires ExecutionContract(prior, worldId, usedEvents, command, c)
    ensures Expressible(c) && ValidRequest(Assemble(command, c))
  {
    SoundIsRequest(prior, worldId, usedEvents, command, c);
  }

  /** Sound changes make a request exactly when there are at most 2^32 operations. */
  lemma SoundIsRequest(
    prior: map<RecordKey, DomainRecord>, worldId: nat, usedEvents: set<EventId>, command: Command, c: ChangeSet)
    requires SoundChanges(prior, worldId, usedEvents, command, c)
    ensures Expressible(c) <==> |c.upserts| + |c.deletes| <= MAX_OPERATIONS
    ensures Expressible(c) ==> ValidRequest(Assemble(command, c))
  {
    if |c.upserts| + |c.deletes| <= MAX_OPERATIONS {
      ExpressibleIsRequest(prior, worldId, usedEvents, command, c);
    }
  }

  lemma ExpressibleIsRequest(
    prior: map<RecordKey, DomainRecord>, worldId: nat, usedEvents: set<EventId>, command: Command, c: ChangeSet)
    requires SoundChanges(prior, worldId, usedEvents, command, c) && Expressible(c)
    ensures ValidRequest(Assemble(command, c))
  {
    var request := Assemble(command, c);
    OpsFacts(c);
    forall i | 0 <= i < |request.transcripts|
      ensures request.transcripts[i].revision == Some(c.revision)
      ensures UpsertsKey(request.recordOps, KeyOf(TranscriptItem(request.transcripts[i])))
    {
      var t := request.transcripts[i];
      TranscriptsOfMembers(c.upserts, t);
      var u :| 0 <= u < |c.upserts| && c.upserts[u] == TranscriptItem(t);
      assert TranscriptItem(t) in c.upserts;
      UpsertListed(c, u);
      var m := Upsert(ToEnvelope(c.upserts[u], c.revision, Some(c.actionId)));
      var j :| 0 <= j < |request.recordOps| && request.recordOps[j].mutation == m;
      assert request.recordOps[j].mutation.record.key == KeyOf(TranscriptItem(t));
    }
  }

  // --------------------------------------------------- one operation too many

  /** A first command that inserts `n` plain records. */
  function InsertPlain(n: nat): ChangeSet {
    ChangeSet(1, 0, 1, seq(n, i requires 0 <= i < n => Other(0, i, 0, true)), [], [], 0)
  }

  const INSERT_COMMAND: Command := Command(1, 0, 0, 0)

  lemma InsertPlainIsSound(n: nat, prior: map<RecordKey, DomainRecord>, worldId: nat, usedEvents: set<EventId>)
    requires n > 0
    ensures SoundChanges(prior, worldId, usedEvents, INSERT_COMMAND, InsertPlain(n))
  {
    var c := InsertPlain(n);
    forall i, j | 0 <= i < j < |Mutations(c)|
      ensures MutationKey(Mutations(c)[i]) != MutationKey(Mutations(c)[j])
    {
      assert KeyOf(c.upserts[i]) == RecordKey(2, i) && KeyOf(c.upserts[j]) == RecordKey(2, j);
    }
  }

  /**
   * Inserting 2^32 records passes `record_ops` and `validate`, and no replay
   * accepts the operations, whatever it starts from; one record fewer is replayed.
   */
  lemma LargestRequestIsNotReplayed(records: RecordSet, action: Option<ActionId>, order: nat)
    requires DecodableSet(records)
    ensures var c := InsertPlain(MAX_OPERATIONS);
      && Expressible(c) && ValidRequest(Assemble(INSERT_COMMAND, c))
      && Replay(ReplayState(0, action, order, records), OpsOf(c)) == Err(InvalidOperationOrder(1, U32_MAX))
    ensures var c := InsertPlain(U32_MAX);
      && Expressible(c) && ValidRequest(Assemble(INSERT_COMMAND, c))
      && Replay(ReplayState(0, action, order, records), OpsOf(c)).Ok?
  {
    InsertPlainMeaning(MAX_OPERATIONS, records, action, order);
    InsertPlainMeaning(U32_MAX, records, action, order);
  }

  lemma InsertPlainMeaning(n: nat, records: RecordSet, action: Option<ActionId>, order: nat)
    requires 0 < n <= MAX_OPERATIONS && DecodableSet(records)
    ensures var c := InsertPlain(n);
      && Expressible(c) && ValidRequest(Assemble(INSERT_COMMAND, c))
      && (n <= U32_MAX ==> Replay(ReplayState(0, action, order, records), OpsOf(c)).Ok?)
      && (n > U32_MAX ==>
        Replay(ReplayState(0, action, order, records), OpsOf(c)) == Err(InvalidOperationOrder(1, U32_MAX)))
  {
    hide SoundChanges, Expressible, Validate, OpsOf, Replay;
    InsertPlainIsSound(n, map[], 0, {});
    SoundIsRequest(map[], 0, {}, INSERT_COMMAND, InsertPlain(n));
    ChangeSetMeaning(InsertPlain(n), records, action, order);
  }
}
