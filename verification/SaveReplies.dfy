/**
 * What each transaction on a save answers and leaves behind, told by the
 * history the save holds: commits, resolutions, checkpoints and adoptions.
 */
module SaveReplies {
  import opened Outcomes
  import opened Ordering
  import opened Records
  import opened ChangeSets
  import opened Requests
  import opened Locks
  import opened SaveTables
  import opened SaveHistory
  import opened SaveLoading
  import opened SaveProtocol

  // --------------------------------------------------------------- commits

  /** The request passes the checks that need no table. */
  ghost predicate Sendable(r: CommitRequest) {
    ValidRequest(r) && r.command.expectedRevision < I64_MAX
  }

  /** A request that is not sendable, or not received, changes nothing. */
  lemma CommitRefused(t: Tables, m: Manifest, cached: Revision, r: CommitRequest, fate: Fate)
    ensures var step := CommitTx(t, m, cached, r, fate);
      && (!ValidRequest(r) ==> step == Step(t, cached, Err(InvalidRequest(Validate(r).error))))
      && (ValidRequest(r) && !Sendable(r) ==> step == Step(t, cached, Err(RevisionOutOfRange)))
      && (Sendable(r) && fate == Unavailable ==> step == Step(t, cached, Err(Backend)))
  {
    if ValidRequest(r) {
      ValidRequestIsBlock(r);
    }
  }

  /**
   * A sendable request with a new action identifier conflicts exactly when the
   * head is not at the revision it expects. Otherwise its rows are there exactly
   * if the transaction commits, and its handle holds the new revision exactly if
   * it is told so; lost to another transaction, it holds the revision read again.
   */
  lemma CommitReplies(
    t: Tables, m: Manifest, cached: Revision, initial: RecordMap, h: History, r: CommitRequest, fate: Fate)
    requires Represents(t, m, initial, h) && Sendable(r) && DistinctTranscripts(r.transcripts)
    requires r.command.actionId !in UsedActions(h) && fate != Unavailable
    ensures var step, n := CommitTx(t, m, cached, r, fate), r.command.expectedRevision;
      && (n != |h| ==> step == Step(t, cached, Ok(Conflict(n, |h|))))
      && (n == |h| && fate == Succeeds ==> step.reply == Ok(Committed(r.outcome)) && step.revision == |h| + 1)
      && (n == |h| && fate == LostAfter ==> step.reply == Err(Backend) && step.revision == cached)
      && (n == |h| && (fate == Succeeds || fate == LostAfter)
          && WellFormed(RecordsAfter(initial, h), m.worldId, UsedEvents(h), |h|, r) ==>
            Represents(step.tables, m, initial, h + [r]))
      && (n == |h| && fate == LostBefore ==> step == Step(t, cached, Err(Backend)))
      && (n == |h| && fate.SerializationFailure? ==>
            if fate.reread.Some? && HeadOk(fate.reread.value)
            then var head := fate.reread.value.revision; step == Step(t, head, Ok(Conflict(n, head)))
            else step.tables == t && step.revision == cached && step.reply.Err?)
  {
    ValidRequestIsBlock(r);
    hide Represents, WellFormed, RecordsAfter, UsedEvents, UsedActions, WithCommit, KeyCollision, CommitTx, Validate;
    HeadStands(t, m, initial, h);
    TablesActions(t, m, initial, h);
    if r.command.expectedRevision == |h| {
      NoKeyReused(t, m, initial, h, r);
      if WellFormed(RecordsAfter(initial, h), m.worldId, UsedEvents(h), |h|, r) {
        CommitKeepsHistory(t, m, cached, r, fate, initial, h);
      }
    }
    CommitAt(t, m, cached, r, fate, |h|);
  }

  lemma CommitAt(t: Tables, m: Manifest, cached: Revision, r: CommitRequest, fate: Fate, head: Revision)
    requires HeadLoads(t.heads, m) && t.heads[m.saveId].revision == head && r.command.actionId !in t.actions
    requires Sendable(r) && fate != Unavailable && r.outcome.revision == r.command.expectedRevision + 1
    requires r.command.expectedRevision == head ==> !KeyCollision(t, r)
    ensures var step, n := CommitTx(t, m, cached, r, fate), r.command.expectedRevision;
      && (n != head ==> step == Step(t, cached, Ok(Conflict(n, head))))
      && (n == head && (fate == Succeeds || fate == LostAfter) ==> TakesEffect(t, m, r, fate))
      && (n == head && fate == Succeeds ==> step.reply == Ok(Committed(r.outcome)) && step.revision == head + 1)
      && (n == head && fate == LostAfter ==> step.reply == Err(Backend) && step.revision == cached)
      && (n == head && fate == LostBefore ==> step == Step(t, cached, Err(Backend)))
      && (n == head && fate.SerializationFailure? ==>
            if fate.reread.Some? && HeadOk(fate.reread.value)
            then var now := fate.reread.value.revision; step == Step(t, now, Ok(Conflict(n, now)))
            else step.tables == t && step.revision == cached && step.reply.Err?)
  {
    hide WithCommit, KeyCollision, Validate, ValidManifest;
  }

  /** Resolving a command whose action is not in the history reports the head and takes its revision. */
  lemma ResolveReplies(
    t: Tables, m: Manifest, cached: Revision, initial: RecordMap, h: History, command: Command, available: bool)
    requires Represents(t, m, initial, h)
    ensures !available ==> ResolveTx(t, m, cached, command, available) == Step(t, cached, Err(Backend))
    ensures available && command.actionId !in UsedActions(h) ==>
      ResolveTx(t, m, cached, command, available) == Step(t, |h|, Ok(NotCommitted(|h|)))
  {
    HeadStands(t, m, initial, h);
    TablesActions(t, m, initial, h);
    hide Represents, UsedActions;
  }

  // ------------------------------------------------------------ checkpoints

  /** The list holds exactly these records, each once. */
  ghost predicate Lists(listed: seq<DomainRecord>, records: RecordMap) {
    DistinctRecordKeys(listed) && forall r :: r in listed <==> r in records.Values
  }

  /**
   * A checkpoint is prepared exactly when the handle has the durable manifest,
   * already knew the head's revision and lists exactly the save's records.
   */
  lemma PreparesExactly(
    t: Tables, m: Manifest, durable: Manifest, cached: Revision, records: seq<DomainRecord>, initial: RecordMap,
    h: History)
    requires Represents(t, durable, initial, h) && m.saveId == durable.saveId
    ensures PrepareCheckpointTx(t, m, cached, records).reply.Ok? <==>
      m == durable && cached == |h| && Lists(records, RecordsAfter(initial, h))
  {
    hide ListingFault, EnvelopesOf, Represents, CheckpointEnvelopes, RecordsAfter, LoadResult, GoodRecords;
    if m != durable {
      StaleManifestLoadsNothing(t, m, durable, initial, h);
    } else {
      LoadIsFold(t, m, initial, h);
      SavedGood(t, m, initial, h);
      ListingDecides(RecordsAfter(initial, h), m.worldId, records, cached, |h|);
    }
  }

  lemma SavedGood(t: Tables, m: Manifest, initial: RecordMap, h: History)
    requires Represents(t, m, initial, h)
    ensures GoodRecords(RecordsAfter(initial, h), m.worldId)
  {
    hide RowsRepresent;
    RecordsStayGood(initial, m.worldId, h);
  }

  /** A listing without fault has the envelopes of the loaded one exactly if it lists the same at the same revision. */
  lemma ListingDecides(
    saved: RecordMap, worldId: nat, listed: seq<DomainRecord>, cached: Revision, revision: Revision)
    requires GoodRecords(saved, worldId)
    ensures
      && ListingFault(listed, worldId).None?
      && EnvelopesOf(listed, cached) == EnvelopesOf(Arranged(saved.Values, RecordRank), revision) <==>
        cached == revision && Lists(listed, saved)
  {
    var loaded := Arranged(saved.Values, RecordRank);
    LoadedListing(saved, worldId);
    hide Arranged, EnvelopesOf;
    ListedEnvelopes(loaded, revision);
    if Lists(listed, saved) {
      ListsWithoutFault(saved, worldId, listed);
      if cached == revision {
        ListingGivesCheckpoint(listed, saved, revision);
        ListingGivesCheckpoint(loaded, saved, revision);
      }
    }
    if ListingFault(listed, worldId).None? {
      ListedEnvelopes(listed, cached);
      if EnvelopesOf(listed, cached) == EnvelopesOf(loaded, revision) {
        SameEnvelopes(listed, cached, loaded, revision);
        var world := saved[RecordKey(WORLD_STATE_TYPE, worldId)];
        assert world in loaded;
      }
    }
  }

  lemma SameEnvelopes(a: seq<DomainRecord>, m: Revision, b: seq<DomainRecord>, n: Revision)
    requires forall e: Envelope :: (e.payload in a && e == ToEnvelope(e.payload, m, None)) <==>
      (e.payload in b && e == ToEnvelope(e.payload, n, None))
    ensures forall r :: r in a <==> r in b
    ensures b != [] ==> m == n
  {
    forall r
      ensures r in a <==> r in b
      ensures r in b ==> m == n
    {
      var x, y := ToEnvelope(r, m, None), ToEnvelope(r, n, None);
      assert x.payload == r && y.payload == r;
    }
    if b != [] {
      assert b[0] in b;
    }
  }

  lemma ListsWithoutFault(saved: RecordMap, worldId: nat, listed: seq<DomainRecord>)
    requires GoodRecords(saved, worldId) && Lists(listed, saved)
    ensures ListingFault(listed, worldId).None?
  {
    var world := saved[RecordKey(WORLD_STATE_TYPE, worldId)];
    assert world in listed;
    assert KeyOf(world) == RecordKey(WORLD_STATE_TYPE, worldId);
    var i :| 0 <= i < |listed| && listed[i] == world;
    forall j | 0 <= j < |listed|
      ensures ValidRecord(listed[j])
      ensures listed[j].WorldState? ==> KeyOf(listed[j]) == KeyOf(world)
    {
      assert listed[j] in saved.Values;
      var k :| k in saved && saved[k] == listed[j];
    }
  }

  /** Reading the records back from a checkpoint row gives these. */
  ghost predicate Restores(row: CheckpointRow, revision: Revision, records: RecordMap) {
    && row.revision == revision
    && var seeded := SeedRecords(revision, row.records, map[]);
       seeded.Ok? && DecodableSet(seeded.value) && Decoded(seeded.value) == records
  }

  /** Every checkpoint of a save restores the records of its own revision. */
  lemma StoredRestores(t: Tables, m: Manifest, initial: RecordMap, h: History, c: nat)
    requires Represents(t, m, initial, h) && c in t.checkpoints
    ensures c <= |h| && Restores(t.checkpoints[c], c, RecordsAfter(initial, h[..c]))
  {
    var base := RecordsAfter(initial, h[..c]);
    GoodHistoryPrefix(initial, m.worldId, h, c);
    RecordsStayGood(initial, m.worldId, h[..c]);
    CheckpointLists(base, m.worldId, c);
    CheckpointSeeds(CheckpointEnvelopes(base, c), base, m.worldId, c);
  }

  /**
   * Writing what was sealed is answered `Ok` exactly at the head it was sealed
   * at, if the row is there already or the transaction succeeds; the row is
   * there afterwards exactly if it was or the transaction commits, and it then
   * restores the records of the history.
   */
  lemma WritesExactly(
    t: Tables, durable: Manifest, revision: Revision, envelopes: seq<Envelope>, fate: Fate, initial: RecordMap,
    h: History)
    requires Represents(t, durable, initial, h) && SealedAt(initial, h, revision, envelopes)
    ensures var step := WriteCheckpointTx(t, durable.saveId, revision, envelopes, fate);
      && (step.reply.Ok? <==>
            revision == |h| && fate != Unavailable && (|h| in t.checkpoints || fate == Succeeds))
      && step.tables.checkpoints.Keys == t.checkpoints.Keys
           + (if revision == |h| && (fate == Succeeds || fate == LostAfter) then {|h|} else {})
      && (|h| in step.tables.checkpoints ==> Restores(step.tables.checkpoints[|h|], |h|, RecordsAfter(initial, h)))
      && step.revision == (if fate == Unavailable then revision else |h|)
  {
    var step := WriteCheckpointTx(t, durable.saveId, revision, envelopes, fate);
    SealedCheckpointKeepsHistory(t, durable, revision, envelopes, fate, initial, h);
    StoredIsSealed(t, durable, initial, h);
    HeadStands(t, durable, initial, h);
    assert h[..|h|] == h;
    hide Represents, CheckpointEnvelopes, RecordsAfter, Restores, WriteCheckpointTx;
    if |h| in step.tables.checkpoints {
      StoredRestores(step.tables, durable, initial, h, |h|);
    }
    WritesAt(t, durable, revision, envelopes, fate, |h|);
  }

  lemma WritesAt(
    t: Tables, m: Manifest, revision: Revision, envelopes: seq<Envelope>, fate: Fate, head: Revision)
    requires HeadLoads(t.heads, m) && t.heads[m.saveId].revision == head
    requires revision == head && head in t.checkpoints ==>
      t.checkpoints[head] == CheckpointRowFor(m.saveId, head, envelopes)
    ensures var step := WriteCheckpointTx(t, m.saveId, revision, envelopes, fate);
      && (step.reply.Ok? <==>
            revision == head && fate != Unavailable && (head in t.checkpoints || fate == Succeeds))
      && step.tables.checkpoints.Keys == t.checkpoints.Keys
           + (if revision == head && (fate == Succeeds || fate == LostAfter) then {head} else {})
      && step.revision == (if fate == Unavailable then revision else head)
  {}

  lemma StoredIsSealed(t: Tables, m: Manifest, initial: RecordMap, h: History)
    requires Represents(t, m, initial, h)
    ensures |h| in t.checkpoints ==>
      t.checkpoints[|h|] == CheckpointRowFor(m.saveId, |h|, CheckpointEnvelopes(RecordsAfter(initial, h), |h|))
  {
    assert h[..|h|] == h;
  }

  /**
   * A whole checkpoint, over whatever other handles did between its two
   * transactions. It is answered `Ok` exactly if it was prepared, nothing was
   * committed in between, and the row was written or is there already; then the
   * save holds a row from which the records of its history are read back.
   */
  lemma CheckpointTaken(
    before: Tables, m: Manifest, cached: Revision, records: seq<DomainRecord>, held: History,
    t: Tables, durable: Manifest, fate: Fate, initial: RecordMap, h: History)
    requires Represents(before, m, initial, held)
    requires Represents(t, durable, initial, h) && held <= h && durable.saveId == m.saveId
    ensures var prepared := PrepareCheckpointTx(before, m, cached, records);
      && (prepared.reply.Ok? <==> cached == |held| && Lists(records, RecordsAfter(initial, held)))
      && (prepared.reply.Ok? ==>
            var step := WriteCheckpointTx(t, m.saveId, prepared.revision, prepared.reply.value, fate);
            && (step.reply.Ok? <==>
                  h == held && fate != Unavailable && (|h| in t.checkpoints || fate == Succeeds))
            && (h == held && (fate == Succeeds || fate == LostAfter) ==> |h| in step.tables.checkpoints)
            && (step.reply.Ok? ==>
                  && step.revision == |h| && |h| in step.tables.checkpoints
                  && Restores(step.tables.checkpoints[|h|], |h|, RecordsAfter(initial, h))))
  {
    hide Represents, WriteCheckpointTx, PrepareCheckpointTx, CheckpointEnvelopes, RecordsAfter, Restores, Lists;
    PreparesExactly(before, m, m, cached, records, initial, held);
    PreparedIsFold(before, m, m, cached, records, initial, held);
    var prepared := PrepareCheckpointTx(before, m, cached, records);
    if prepared.reply.Ok? {
      assert h[..|held|] == held == held[..|held|];
      assert h == held <==> |h| == |held|;
      WritesExactly(t, durable, prepared.revision, prepared.reply.value, fate, initial, h);
    }
  }

  // -------------------------------------------------------------- adoptions

  /**
   * An adoption succeeds exactly for a valid candidate asked for by a handle
   * with the durable manifest and the head's revision, unless the transaction
   * fails; the candidate becomes durable exactly if the transaction commits.
   */
  lemma AdoptsExactly(
    t: Tables, m: Manifest, durable: Manifest, cached: Revision, worldLock: WorldLock, modLock: seq<LockedMod>,
    fate: Fate, initial: RecordMap, h: History)
    requires Represents(t, durable, initial, h) && m.saveId == durable.saveId
    ensures var step, wanted := AdoptTx(t, m, cached, worldLock, modLock, fate),
        m.(worldLock := worldLock, modLock := modLock);
      && (step.reply.Ok? <==>
            && ValidManifest(wanted) && m == durable && cached == |h|
            && fate != Unavailable && (wanted == m || fate == Succeeds))
      && (step.reply.Ok? ==> step.reply.value == wanted)
      && (if ValidManifest(wanted) && m == durable && cached == |h| && (fate == Succeeds || fate == LostAfter)
          then Represents(step.tables, wanted, initial, h) else step.tables == t)
  {
    AdoptKeepsHistory(t, m, durable, cached, worldLock, modLock, fate, initial, h);
    HeadStands(t, durable, initial, h);
    StandingHead(t, durable, initial, h);
    hide Represents, RecordsAfter, ValidManifest;
  }

  lemma StandingHead(t: Tables, m: Manifest, initial: RecordMap, h: History)
    requires Represents(t, m, initial, h)
    ensures t.heads == map[m.saveId := HeadRowFor(|h|, m)] && ValidManifest(m)
  {}
}
