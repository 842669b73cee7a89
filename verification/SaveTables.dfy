/**
 * The durable tables of a save and the transactions that change them.
 *
 * A checksum is modelled as a perfect digest: it is the digested content. A
 * transaction is one atomic step whose commit has one of several fates.
 */
module SaveTables {
  import opened Outcomes
  import opened Records
  import opened ChangeSets
  import opened Requests
  import opened Locks

  const SAVE_FORMAT_V1: nat := 1

  datatype Manifest = Manifest(
    formatVersion: nat, saveId: nat, worldId: nat, worldLock: WorldLock, modLock: seq<LockedMod>)

  ghost predicate ValidManifest(m: Manifest) {
    m.formatVersion == SAVE_FORMAT_V1 && ValidWorldLock(m.worldLock) && ValidLock(m.modLock)
  }

  datatype Digest =
    | HeadDigest(headRevision: int, manifest: Manifest)
    | CheckpointDigest(checkpointRevision: int, records: seq<Envelope>)
    | OpDigest(opSave: nat, opRevision: int, opOrder: int, opAction: ActionId, op: Op)
    | EventDigest(eventSave: nat, eventRevision: int, eventId: EventId, event: Event)
    | TranscriptDigest(transcriptSave: nat, transcriptRevision: int, transcriptId: nat, transcript: Transcript)
    | ActionDigest(actionSave: nat, actionId: ActionId, actionRevision: int, requestDigest: Command,
                   command: Command, outcome: CommittedAction)

  /** Integer columns are signed in the backend, so a stored revision may be negative. */
  datatype HeadRow = HeadRow(saveId: nat, revision: int, manifest: Manifest, checksum: Digest)
  datatype CheckpointRow = CheckpointRow(saveId: nat, revision: int, records: seq<Envelope>, checksum: Digest)
  datatype OpRow = OpRow(saveId: nat, revision: int, order: int, actionId: ActionId, payload: Op, checksum: Digest)
  datatype EventRow = EventRow(saveId: nat, revision: int, eventId: EventId, payload: Event, checksum: Digest)
  datatype TranscriptRow =
    TranscriptRow(saveId: nat, revision: int, transcriptId: nat, payload: Transcript, checksum: Digest)
  datatype ActionRow = ActionRow(
    saveId: nat, actionId: ActionId, revision: int, requestDigest: Command, command: Command,
    outcome: CommittedAction, checksum: Digest)

  /** One map per table, keyed by the row's primary key. */
  datatype Tables = Tables(
    heads: map<nat, HeadRow>,
    checkpoints: map<nat, CheckpointRow>,
    recordOps: map<(nat, nat), OpRow>,
    events: map<(nat, nat), EventRow>,
    transcripts: map<(nat, nat), TranscriptRow>,
    actions: map<ActionId, ActionRow>)

  datatype StoreError =
    | SaveAlreadyExists
    | Backend
    | Integrity
    | RevisionOutOfRange
    | InvalidRequest(cause: RequestError)
    | InvalidStoreCommit
    | InvalidRecords
    | InvalidManifest

  // ------------------------------------------------------------------ rows

  function HeadRowFor(revision: int, m: Manifest): HeadRow {
    HeadRow(m.saveId, revision, m, HeadDigest(revision, m))
  }

  function CheckpointRowFor(saveId: nat, revision: int, records: seq<Envelope>): CheckpointRow {
    CheckpointRow(saveId, revision, records, CheckpointDigest(revision, records))
  }

  function OpRowFor(saveId: nat, op: Op): OpRow {
    OpRow(saveId, op.revision, op.order, op.actionId, op,
      OpDigest(saveId, op.revision, op.order, op.actionId, op))
  }

  function EventRowFor(saveId: nat, e: Event): EventRow {
    EventRow(saveId, e.revision, e.id, e, EventDigest(saveId, e.revision, e.id, e))
  }

  function TranscriptRowFor(saveId: nat, revision: int, t: Transcript): TranscriptRow {
    TranscriptRow(saveId, revision, t.id, t, TranscriptDigest(saveId, revision, t.id, t))
  }

  function ActionRowFor(saveId: nat, r: CommitRequest): ActionRow {
    ActionRow(saveId, r.command.actionId, r.outcome.revision, r.command, r.command, r.outcome,
      ActionDigest(saveId, r.command.actionId, r.outcome.revision, r.command, r.command, r.outcome))
  }

  /** `validate_head_row` accepts the row. */
  ghost predicate HeadOk(row: HeadRow) {
    && 0 <= row.revision
    && row.checksum == HeadDigest(row.revision, row.manifest)
    && ValidManifest(row.manifest)
    && row.saveId == row.manifest.saveId
  }

  predicate CheckpointOk(key: nat, row: CheckpointRow, saveId: nat, head: int) {
    && row.saveId == saveId && 0 <= row.revision <= head && key == row.revision
    && row.checksum == CheckpointDigest(row.revision, row.records)
  }

  predicate OpOk(key: (nat, nat), row: OpRow, saveId: nat, head: int) {
    && row.saveId == saveId && 0 <= row.revision <= head && 0 <= row.order <= U32_MAX
    && key == (row.revision, row.order)
    && row.checksum == OpDigest(saveId, row.revision, row.order, row.actionId, row.payload)
    && row.payload.revision == row.revision && row.payload.order == row.order
    && row.payload.actionId == row.actionId
  }

  predicate EventOk(key: (nat, nat), row: EventRow, saveId: nat, head: int) {
    && row.saveId == saveId && 0 <= row.revision <= head && key == (row.revision, row.eventId)
    && row.checksum == EventDigest(saveId, row.revision, row.eventId, row.payload)
    && row.payload.revision == row.revision && row.payload.id == row.eventId
  }

  predicate TranscriptOk(key: (nat, nat), row: TranscriptRow, saveId: nat, head: int) {
    && row.saveId == saveId && 0 <= row.revision <= head && key == (row.revision, row.transcriptId)
    && row.checksum == TranscriptDigest(saveId, row.revision, row.transcriptId, row.payload)
    && row.payload.id == row.transcriptId
    && (row.payload.revision.Some? ==> row.payload.revision.value == row.revision)
  }

  /** `validate_action_row` accepts the row stored under `key`. */
  predicate ActionOk(key: ActionId, row: ActionRow, saveId: nat) {
    && 0 <= row.revision
    && row.saveId == saveId && key == row.actionId
    && row.checksum == ActionDigest(saveId, row.actionId, row.revision, row.requestDigest, row.command, row.outcome)
    && row.command.actionId == row.actionId && row.outcome.actionId == row.command.actionId
    && row.outcome.revision == row.revision && row.command == row.requestDigest
  }

  // ---------------------------------------------------------------- commit

  /** What happens to a transaction between its first read and its commit. */
  datatype Fate =
    | Unavailable        // the backend fails before anything is read
    | Succeeds           // the commit succeeds and is reported
    | LostBefore         // the commit is reported failed and had no effect
    | LostAfter          // the commit is reported failed but took effect
    | SerializationFailure(reread: Option<HeadRow>)  // lost to another transaction; the head is then read again

  datatype CommitReply =
    | Committed(outcome: CommittedAction)
    | AlreadyCommitted(existing: CommittedAction)
    | Conflict(expected: Revision, actual: Revision)
    | IdentityConflict(reused: ActionId)

  /** The tables and the handle's cached revision after a transaction, and its reply. */
  datatype Step<T> = Step(tables: Tables, revision: Revision, reply: Result<T, StoreError>)

  function OpRows(saveId: nat, ops: seq<Op>): map<(nat, nat), OpRow>
  {
    if ops == [] then map[]
    else
      var op := ops[|ops| - 1];
      OpRows(saveId, ops[..|ops| - 1])[(op.revision, op.order) := OpRowFor(saveId, op)]
  }

  function EventRows(saveId: nat, events: seq<Event>): map<(nat, nat), EventRow>
  {
    if events == [] then map[]
    else
      var e := events[|events| - 1];
      EventRows(saveId, events[..|events| - 1])[(e.revision, e.id) := EventRowFor(saveId, e)]
  }

  function TranscriptRows(saveId: nat, revision: nat, transcripts: seq<Transcript>): map<(nat, nat), TranscriptRow>
  {
    if transcripts == [] then map[]
    else
      var t := transcripts[|transcripts| - 1];
      TranscriptRows(saveId, revision,
        transcripts[..|transcripts| - 1])[(revision, t.id) := TranscriptRowFor(saveId, revision, t)]
  }

  /** Creating the request's rows would reuse a primary key. */
  ghost predicate KeyCollision(t: Tables, r: CommitRequest) {
    || (exists i :: 0 <= i < |r.recordOps| && (r.recordOps[i].revision, r.recordOps[i].order) in t.recordOps)
    || (exists i :: 0 <= i < |r.events| && (r.events[i].revision, r.events[i].id) in t.events)
    || (exists i :: 0 <= i < |r.transcripts| && (r.outcome.revision, r.transcripts[i].id) in t.transcripts)
    || !DistinctTranscripts(r.transcripts)
  }

  /** Every row of one commit, and the head moved to its revision. */
  function WithCommit(t: Tables, m: Manifest, r: CommitRequest): Tables
    requires m.saveId in t.heads
  {
    var revision := r.outcome.revision;
    Tables(
      t.heads[m.saveId := t.heads[m.saveId].(revision := revision, checksum := HeadDigest(revision, m))],
      t.checkpoints,
      t.recordOps + OpRows(m.saveId, r.recordOps),
      t.events + EventRows(m.saveId, r.events),
      t.transcripts + TranscriptRows(m.saveId, revision, r.transcripts),
      t.actions[r.command.actionId := ActionRowFor(m.saveId, r)])
  }

  /** `SaveStore::commit` by a handle caching manifest `m` and revision `cached`. */
  ghost function CommitTx(t: Tables, m: Manifest, cached: Revision, r: CommitRequest, fate: Fate): Step<CommitReply> {
    var expected := r.command.expectedRevision;
    if Validate(r).Err? then
      Step(t, cached, Err(InvalidRequest(Validate(r).error)))
    else if r.outcome.revision > I64_MAX then
      Step(t, cached, Err(RevisionOutOfRange))
    else if fate == Unavailable then
      Step(t, cached, Err(Backend))
    else if r.command.actionId in t.actions then
      var existing := t.actions[r.command.actionId];
      if !ActionOk(r.command.actionId, existing, m.saveId) then Step(t, cached, Err(Integrity))
      else if existing.requestDigest == r.command then Step(t, cached, Ok(AlreadyCommitted(existing.outcome)))
      else Step(t, cached, Ok(IdentityConflict(r.command.actionId)))
    else if m.saveId !in t.heads then
      Step(t, cached, Err(Backend))
    else if !HeadOk(t.heads[m.saveId]) then
      Step(t, cached, Err(Integrity))
    else if t.heads[m.saveId].revision != expected then
      Step(t, cached, Ok(Conflict(expected, t.heads[m.saveId].revision)))
    else if KeyCollision(t, r) then
      Step(t, cached, Err(Backend))
    else
      match fate
      case Succeeds => Step(WithCommit(t, m, r), r.outcome.revision, Ok(Committed(r.outcome)))
      case LostAfter => Step(WithCommit(t, m, r), cached, Err(Backend))
      case SerializationFailure(reread) =>
        if reread.None? then Step(t, cached, Err(Backend))
        else if !HeadOk(reread.value) then Step(t, cached, Err(Integrity))
        else Step(t, reread.value.revision, Ok(Conflict(expected, reread.value.revision)))
      case _ => Step(t, cached, Err(Backend))
  }

  datatype Resolution =
    | NotCommitted(head: Revision)
    | ResolvedCommitted(resolved: CommittedAction)
    | ResolvedConflict(conflicting: ActionId)

  /** `SaveStore::resolve_action`. */
  ghost function ResolveTx(
    t: Tables, m: Manifest, cached: Revision, command: Command, available: bool): Step<Resolution>
  {
    if !available then
      Step(t, cached, Err(Backend))
    else if command.actionId in t.actions then
      var row := t.actions[command.actionId];
      if !ActionOk(command.actionId, row, m.saveId) then Step(t, cached, Err(Integrity))
      else if row.requestDigest == command then Step(t, cached, Ok(ResolvedCommitted(row.outcome)))
      else Step(t, cached, Ok(ResolvedConflict(command.actionId)))
    else if m.saveId !in t.heads then
      Step(t, cached, Err(Backend))
    else if !HeadOk(t.heads[m.saveId]) then
      Step(t, cached, Err(Integrity))
    else
      Step(t, t.heads[m.saveId].revision, Ok(NotCommitted(t.heads[m.saveId].revision)))
  }
}
