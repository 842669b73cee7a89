/**
 * The save protocol: any number of handles committing, resolving, loading,
 * preparing and writing checkpoints, adopting content locks and connecting, in any interleaving,
 * each transaction ending in any fate.
 */
module SaveProtocol {
  import opened Outcomes
  import opened Ordering
  import opened Records
  import opened ChangeSets
  import opened Requests
  import opened Locks
  import opened SaveTables
  import opened SaveHistory
  import opened SaveLoading

  // ------------------------------------------------------------ checkpoint

  /** `validate_world_identity` on a record list. */
  predicate ListedWorldIdentity(records: seq<DomainRecord>, worldId: nat) {
    && (exists i :: 0 <= i < |records| && records[i].WorldState? && records[i].worldId == worldId)
    && (forall i, j :: 0 <= i < j < |records| ==> !(records[i].WorldState? && records[j].WorldState?))
  }

  predicate ValidRecords(records: seq<DomainRecord>) {
    forall i :: 0 <= i < |records| ==> ValidRecord(records[i])
  }

  predicate DistinctRecordKeys(records: seq<DomainRecord>) {
    forall i, j :: 0 <= i < j < |records| ==> KeyOf(records[i]) != KeyOf(records[j])
  }

  /** `checkpoint_records`: envelopes at `revision` without provenance, sorted by key. */
  function EnvelopesOf(records: seq<DomainRecord>, revision: Revision): seq<Envelope> {
    Sort(seq(|records|, i requires 0 <= i < |records| => ToEnvelope(records[i], revision, None)), EnvelopeRank)
  }

  /** What is wrong with a list of records to checkpoint. */
  function ListingFault(records: seq<DomainRecord>, worldId: nat): Option<StoreError> {
    if !ListedWorldIdentity(records, worldId) then Some(Integrity)
    else if !ValidRecords(records) || !DistinctRecordKeys(records) then Some(InvalidRecords)
    else None
  }

  /** The first half of `checkpoint`: the envelopes to write, equal to those of a load. */
  ghost function PrepareCheckpointTx(
    t: Tables, m: Manifest, cached: Revision, records: seq<DomainRecord>): Step<seq<Envelope>>
  {
    if ListingFault(records, m.worldId).Some? then Step(t, cached, Err(ListingFault(records, m.worldId).value))
    else if LoadResult(t, m).None? then Step(t, cached, Err(Integrity))
    else
      var loaded := LoadResult(t, m).value;
      var envelopes := EnvelopesOf(records, cached);
      Step(t, loaded.revision, if envelopes == EnvelopesOf(loaded.records, loaded.revision) then Ok(envelopes)
        else Err(Integrity))
  }

  /** Its second half: a transaction of its own, which reads the head again. */
  ghost function WriteCheckpointTx(
    t: Tables, saveId: nat, revision: Revision, envelopes: seq<Envelope>, fate: Fate): Step<()>
  {
    var row := CheckpointRowFor(saveId, revision, envelopes);
    var written := t.(checkpoints := t.checkpoints[revision := row]);
    if fate == Unavailable || saveId !in t.heads then Step(t, revision, Err(Backend))
    else if !HeadOk(t.heads[saveId]) then Step(t, revision, Err(Integrity))
    else if t.heads[saveId].revision != revision then Step(t, t.heads[saveId].revision, Err(InvalidStoreCommit))
    else if revision in t.checkpoints then
      Step(t, revision, if t.checkpoints[revision] == row then Ok(()) else Err(Integrity))
    else
      match fate
      case Succeeds => Step(written, revision, Ok(()))
      case LostAfter => Step(written, revision, Err(Backend))
      case _ => Step(t, revision, Err(Backend))
  }

  /** `SaveStore::adopt_content_locks`. */
  ghost function AdoptTx(
    t: Tables, m: Manifest, cached: Revision, worldLock: WorldLock, modLock: seq<LockedMod>,
    fate: Fate): Step<Manifest>
  {
    var candidate := m.(worldLock := worldLock, modLock := modLock);
    if !ValidManifest(candidate) then Step(t, cached, Err(StoreError.InvalidManifest))
    else if fate == Unavailable || m.saveId !in t.heads then Step(t, cached, Err(Backend))
    else if !HeadOk(t.heads[m.saveId]) then Step(t, cached, Err(Integrity))
    else if t.heads[m.saveId].manifest != m || t.heads[m.saveId].revision != cached
      then Step(t, cached, Err(InvalidStoreCommit))
    else if candidate == m then Step(t, cached, Ok(m))
    else
      var row := t.heads[m.saveId].(manifest := candidate, checksum := HeadDigest(cached, candidate));
      var adopted := t.(heads := t.heads[m.saveId := row]);
      match fate
      case Succeeds => Step(adopted, cached, Ok(candidate))
      case LostAfter => Step(adopted, cached, Err(Backend))
      case _ => Step(t, cached, Err(Backend))
  }

  lemma ListedEnvelopes(listed: seq<DomainRecord>, revision: nat)
    requires DistinctRecordKeys(listed)
    ensures StrictlySortedBy(EnvelopesOf(listed, revision), EnvelopeRank)
    ensures forall e :: e in EnvelopesOf(listed, revision) <==>
      e.payload in listed && e == ToEnvelope(e.payload, revision, None)
  {
    var envelopes := seq(|listed|, i requires 0 <= i < |listed| => ToEnvelope(listed[i], revision, None));
    forall i, j | 0 <= i < j < |envelopes|
      ensures EnvelopeRank(envelopes[i]) != EnvelopeRank(envelopes[j])
    {
      assert KeyOf(listed[i]) != KeyOf(listed[j]);
    }
    SortStrict(envelopes, EnvelopeRank);
    SortMembers(envelopes, EnvelopeRank);
    forall e
      ensures e in envelopes <==> e.payload in listed && e == ToEnvelope(e.payload, revision, None)
    {
      if e.payload in listed && e == ToEnvelope(e.payload, revision, None) {
        var i :| 0 <= i < |listed| && listed[i] == e.payload;
        assert envelopes[i] == e;
      }
    }
  }

  /** Any listing of a record map gives the map's checkpoint. */
  lemma ListingGivesCheckpoint(listed: seq<DomainRecord>, records: RecordMap, revision: nat)
    requires DistinctRecordKeys(listed)
    requires forall k :: k in records ==> KeyOf(records[k]) == k
    requires forall r :: r in listed <==> r in records.Values
    ensures EnvelopesOf(listed, revision) == CheckpointEnvelopes(records, revision)
  {
    var s := set k | k in records :: ToEnvelope(records[k], revision, None);
    ListedEnvelopes(listed, revision);
    forall e
      ensures e in s <==> e.payload in listed && e == ToEnvelope(e.payload, revision, None)
    {
      if e.payload in records.Values {
        assert records[KeyOf(e.payload)] == e.payload;
      }
    }
    forall x, y | x in s && y in s && EnvelopeRank(x) == EnvelopeRank(y)
      ensures x == y
    {
      assert x.key == y.key;
    }
    ArrangedUnique(s, EnvelopeRank, EnvelopesOf(listed, revision));
  }

  /** Loaded records list every record once, in key order. */
  lemma LoadedListing(records: RecordMap, worldId: nat)
    requires GoodRecords(records, worldId)
    ensures DistinctRecordKeys(Arranged(records.Values, RecordRank))
    ensures forall r :: r in Arranged(records.Values, RecordRank) <==> r in records.Values
  {
    hide ValidRecord;
    var listed := Arranged(records.Values, RecordRank);
    forall x, y | x in records.Values && y in records.Values && RecordRank(x) == RecordRank(y)
      ensures x == y
    {
      assert KeyOf(x) == KeyOf(y);
    }
    ArrangedFacts(records.Values, RecordRank);
    hide Arranged;
    forall i, j | 0 <= i < j < |listed|
      ensures KeyOf(listed[i]) != KeyOf(listed[j])
    {
      assert Before(RecordRank(listed[i]), RecordRank(listed[j]));
    }
  }

  lemma LoadedEnvelopes(records: RecordMap, worldId: nat, revision: nat)
    requires GoodRecords(records, worldId)
    ensures EnvelopesOf(Arranged(records.Values, RecordRank), revision) == CheckpointEnvelopes(records, revision)
  {
    LoadedListing(records, worldId);
    ListingGivesCheckpoint(Arranged(records.Values, RecordRank), records, revision);
  }

  // --------------------------------------------------------- single steps

  /** The request's rows reach the tables, whatever is reported. */
  ghost predicate TakesEffect(t: Tables, m: Manifest, r: CommitRequest, fate: Fate) {
    && ValidRequest(r) && r.outcome.revision <= I64_MAX
    && (fate == Succeeds || fate == LostAfter)
    && r.command.actionId !in t.actions
    && m.saveId in t.heads && HeadOk(t.heads[m.saveId])
    && t.heads[m.saveId].revision == r.command.expectedRevision
    && !KeyCollision(t, r)
  }

  lemma CommitEffect(t: Tables, m: Manifest, cached: Revision, r: CommitRequest, fate: Fate)
    ensures TakesEffect(t, m, r, fate) ==> CommitTx(t, m, cached, r, fate).tables == WithCommit(t, m, r)
    ensures !TakesEffect(t, m, r, fate) ==> CommitTx(t, m, cached, r, fate).tables == t
  {}

  /**
   * Committing through a handle whose cached manifest differs from the durable
   * one leaves a head whose checksum does not match: the head stays valid if
   * and only if the two manifests are equal.
   */
  lemma HeadValidIffManifestsAgree(
    t: Tables, durable: Manifest, cached: Manifest, initial: RecordMap, h: History, r: CommitRequest, fate: Fate)
    requires Represents(t, durable, initial, h) && cached.saveId == durable.saveId
    requires TakesEffect(t, cached, r, fate)
    ensures var t' := CommitTx(t, cached, |h|, r, fate).tables;
      && durable.saveId in t'.heads
      && (HeadOk(t'.heads[durable.saveId]) <==> cached == durable)
  {
    HeadIsOk(t.heads, durable, |h|);
    CommitEffect(t, cached, |h|, r, fate);
  }

  /**
   * Retry: once a command is committed, committing it again, in any fate that
   * reaches the tables, changes nothing and returns the original outcome;
   * resolving it returns that outcome; reusing its identifier for another
   * command is refused.
   */
  lemma RetryReturnsOriginal(
    t: Tables, m: Manifest, initial: RecordMap, h: History, i: nat, cached: Revision, r: CommitRequest, fate: Fate)
    requires Represents(t, m, initial, h) && i < |h|
    requires ValidRequest(r) && r.outcome.revision <= I64_MAX && fate != Unavailable
    requires r.command.actionId == h[i].command.actionId
    ensures CommitTx(t, m, cached, r, fate) == Step(t, cached,
      Ok(if r.command == h[i].command then AlreadyCommitted(h[i].outcome) else IdentityConflict(r.command.actionId)))
    ensures ResolveTx(t, m, cached, r.command, true) == Step(t, cached,
      Ok(if r.command == h[i].command then ResolvedCommitted(h[i].outcome) else ResolvedConflict(r.command.actionId)))
  {
    ActionStored(t.actions, m.saveId, initial, m.worldId, h, i);
    ExistingActionReplies(t, m, cached, r, fate);
  }

  lemma ExistingActionReplies(t: Tables, m: Manifest, cached: Revision, r: CommitRequest, fate: Fate)
    requires r.command.actionId in t.actions && ActionOk(r.command.actionId, t.actions[r.command.actionId], m.saveId)
    requires ValidRequest(r) && r.outcome.revision <= I64_MAX && fate != Unavailable
    ensures var row := t.actions[r.command.actionId];
      && CommitTx(t, m, cached, r, fate) == Step(t, cached,
           Ok(if r.command == row.requestDigest then AlreadyCommitted(row.outcome)
             else IdentityConflict(r.command.actionId)))
      && ResolveTx(t, m, cached, r.command, true) == Step(t, cached,
           Ok(if r.command == row.requestDigest then ResolvedCommitted(row.outcome)
             else ResolvedConflict(r.command.actionId)))
  {}

  /** The envelopes of a checkpoint of the first `revision` commits. */
  ghost predicate SealedAt(initial: RecordMap, h: History, revision: Revision, envelopes: seq<Envelope>) {
    revision <= |h| && envelopes == CheckpointEnvelopes(RecordsAfter(initial, h[..revision]), revision)
  }

  /** What a handle has prepared is the fold at the head it loaded; a stale manifest prepares nothing. */
  lemma PreparedIsFold(
    t: Tables, m: Manifest, durable: Manifest, cached: Revision, records: seq<DomainRecord>, initial: RecordMap,
    h: History)
    requires Represents(t, durable, initial, h) && m.saveId == durable.saveId
    ensures var step := PrepareCheckpointTx(t, m, cached, records);
      step.reply.Ok? ==> m == durable && step.revision == |h| && SealedAt(initial, h, |h|, step.reply.value)
  {
    hide ListingFault, EnvelopesOf, Represents, CheckpointEnvelopes, RecordsAfter, LoadResult, SavedState;
    if m != durable {
      StaleManifestLoadsNothing(t, m, durable, initial, h);
    } else {
      LoadIsFold(t, m, initial, h);
      SavedEnvelopes(t, m, initial, h);
      assert h[..|h|] == h;
    }
  }

  lemma HeadStands(t: Tables, m: Manifest, initial: RecordMap, h: History)
    requires Represents(t, m, initial, h)
    ensures HeadLoads(t.heads, m) && t.heads[m.saveId].revision == |h|
  {
    HeadIsOk(t.heads, m, |h|);
  }

  lemma StaleManifestLoadsNothing(t: Tables, m: Manifest, durable: Manifest, initial: RecordMap, h: History)
    requires Represents(t, durable, initial, h) && m.saveId == durable.saveId && m != durable
    ensures LoadResult(t, m).None?
  {
    hide CheckpointsRepresent, OpsRepresent, EventsRepresent, TranscriptsRepresent, ActionsRepresent, GoodSave,
      Projected;
  }

  lemma SavedEnvelopes(t: Tables, m: Manifest, initial: RecordMap, h: History)
    requires Represents(t, m, initial, h)
    ensures SavedState(m, initial, h).revision == |h|
    ensures EnvelopesOf(SavedState(m, initial, h).records, |h|) == CheckpointEnvelopes(RecordsAfter(initial, h), |h|)
  {
    RecordsStayGood(initial, m.worldId, h);
    LoadedEnvelopes(RecordsAfter(initial, h), m.worldId, |h|);
  }

  /**
   * Writing what was sealed, at any later moment and in any fate, leaves the
   * tables representing the same history; it writes only at the head it was
   * sealed at, and is refused once the head has moved on.
   */
  lemma SealedCheckpointKeepsHistory(
    t: Tables, durable: Manifest, revision: Revision, envelopes: seq<Envelope>, fate: Fate, initial: RecordMap,
    h: History)
    requires Represents(t, durable, initial, h) && SealedAt(initial, h, revision, envelopes)
    ensures var step := WriteCheckpointTx(t, durable.saveId, revision, envelopes, fate);
      && Represents(step.tables, durable, initial, h)
      && (step.tables != t ==> revision == |h|)
      && (revision < |h| && fate != Unavailable ==> step == Step(t, |h|, Err(InvalidStoreCommit)))
  {
    hide GoodSave, OpsRepresent, EventsRepresent, TranscriptsRepresent, ActionsRepresent, CheckpointsRepresent,
      CheckpointEnvelopes, RecordsAfter;
    HeadStands(t, durable, initial, h);
    hide HeadOk;
    if revision == |h| {
      assert h[..|h|] == h;
      CheckpointAdded(t.checkpoints, durable.saveId, initial, h);
      var added := t.checkpoints[|h| := CheckpointRowFor(durable.saveId, |h|, envelopes)];
      RowsTogether(t.(checkpoints := added), durable, initial, h);
    }
  }

  /**
   * A checkpoint is a load and a later transaction of its own: whatever was
   * committed or adopted in between, the tables keep representing the history,
   * and something is written only if nothing was committed.
   */
  lemma CheckpointKeepsHistory(
    before: Tables, m: Manifest, cached: Revision, records: seq<DomainRecord>, held: History,
    t: Tables, durable: Manifest, fate: Fate, initial: RecordMap, h: History)
    requires Represents(before, m, initial, held)
    requires Represents(t, durable, initial, h) && held <= h && durable.saveId == m.saveId
    requires PrepareCheckpointTx(before, m, cached, records).reply.Ok?
    ensures var prepared := PrepareCheckpointTx(before, m, cached, records);
      var step := WriteCheckpointTx(t, m.saveId, prepared.revision, prepared.reply.value, fate);
      && prepared.revision == |held|
      && Represents(step.tables, durable, initial, h)
      && (step.tables != t ==> h == held)
      && (h != held && fate != Unavailable ==> step == Step(t, |h|, Err(InvalidStoreCommit)))
  {
    hide Represents, WriteCheckpointTx, PrepareCheckpointTx, CheckpointEnvelopes, RecordsAfter;
    PreparedIsFold(before, m, m, cached, records, initial, held);
    assert h[..|held|] == held[..|held|];
    var prepared := PrepareCheckpointTx(before, m, cached, records);
    SealedCheckpointKeepsHistory(t, durable, prepared.revision, prepared.reply.value, fate, initial, h);
  }

  lemma CheckpointAdded(rows: map<nat, CheckpointRow>, saveId: nat, initial: RecordMap, h: History)
    requires CheckpointsRepresent(rows, saveId, initial, h)
    ensures CheckpointsRepresent(
      rows[|h| := CheckpointRowFor(saveId, |h|, CheckpointEnvelopes(RecordsAfter(initial, h), |h|))], saveId, initial,
        h)
  {
    hide RecordsAfter, CheckpointEnvelopes, CheckpointRowFor;
    assert h[..|h|] == h;
    var row := CheckpointRowFor(saveId, |h|, CheckpointEnvelopes(RecordsAfter(initial, h), |h|));
    forall c | c in rows[|h| := row]
      ensures c <= |h|
      ensures rows[|h| := row][c] == CheckpointRowFor(saveId, c, CheckpointEnvelopes(RecordsAfter(initial, h[..c]), c))
    {}
  }

  /** The durable manifest after a handle adopts content locks. */
  ghost function AdoptedManifest(
    t: Tables, m: Manifest, durable: Manifest, cached: Revision, worldLock: WorldLock, modLock: seq<LockedMod>,
    fate: Fate): Manifest
  {
    if AdoptTx(t, m, cached, worldLock, modLock, fate).tables == t then durable
    else m.(worldLock := worldLock, modLock := modLock)
  }

  /** An adoption writes nothing, or the head under the new valid manifest. */
  lemma AdoptWrites(
    t: Tables, m: Manifest, durable: Manifest, cached: Revision, worldLock: WorldLock, modLock: seq<LockedMod>,
    fate: Fate, n: nat)
    requires HeadsRepresent(t.heads, durable, n) && m.saveId == durable.saveId
    ensures var t' := AdoptTx(t, m, cached, worldLock, modLock, fate).tables;
      var m' := AdoptedManifest(t, m, durable, cached, worldLock, modLock, fate);
      || (t' == t && m' == durable)
      || (m == durable && m' == m.(worldLock := worldLock, modLock := modLock) && ValidManifest(m')
          && t' == t.(heads := map[m'.saveId := HeadRowFor(n, m')]))
  {}

  lemma AdoptKeepsHistory(
    t: Tables, m: Manifest, durable: Manifest, cached: Revision, worldLock: WorldLock, modLock: seq<LockedMod>,
    fate: Fate, initial: RecordMap, h: History)
    requires Represents(t, durable, initial, h) && m.saveId == durable.saveId
    ensures Represents(AdoptTx(t, m, cached, worldLock, modLock, fate).tables,
      AdoptedManifest(t, m, durable, cached, worldLock, modLock, fate), initial, h)
  {
    AdoptWrites(t, m, durable, cached, worldLock, modLock, fate, |h|);
    var m' := AdoptedManifest(t, m, durable, cached, worldLock, modLock, fate);
    RowsTogether(t.(heads := map[m'.saveId := HeadRowFor(|h|, m')]), m', initial, h);
  }

  // ------------------------------------------------------------- the runs

  /** A handle; `sealed` is the checkpoint it has prepared and not yet written. */
  datatype Handle = Handle(manifest: Manifest, revision: Revision, sealed: Option<seq<Envelope>>)

  datatype System = System(tables: Tables, handles: map<nat, Handle>)

  datatype Act =
    | CommitBy(actor: nat, request: CommitRequest, fate: Fate)
    | ResolveBy(actor: nat, command: Command, available: bool)
    | LoadBy(actor: nat)
    | PrepareCheckpointBy(actor: nat, records: seq<DomainRecord>)
    | WriteCheckpointBy(actor: nat, fate: Fate)
    | AdoptBy(actor: nat, worldLock: WorldLock, modLock: seq<LockedMod>, fate: Fate)
    | ConnectAs(actor: nat, target: nat)

  /** The tables and the handle after a transaction; whatever it had prepared is forgotten. */
  ghost function Moved<T>(s: System, actor: nat, step: Step<T>): System
    requires actor in s.handles
  {
    System(step.tables, s.handles[actor := Handle(s.handles[actor].manifest, step.revision, None)])
  }

  /** One protocol step; a step by an unknown handle does nothing. */
  ghost function Perform(s: System, a: Act): System {
    if a.actor !in s.handles then s
    else
      var m, cached := s.handles[a.actor].manifest, s.handles[a.actor].revision;
      match a
      case CommitBy(_, r, fate) => Moved(s, a.actor, CommitTx(s.tables, m, cached, r, fate))
      case ResolveBy(_, command, available) => Moved(s, a.actor, ResolveTx(s.tables, m, cached, command, available))
      case LoadBy(_) =>
        var loaded := LoadResult(s.tables, m);
        s.(handles := s.handles[a.actor := Handle(m, if loaded.Some? then loaded.value.revision else cached, None)])
      case PrepareCheckpointBy(_, records) =>
        var step := PrepareCheckpointTx(s.tables, m, cached, records);
        s.(handles := s.handles[a.actor := Handle(m, step.revision, if step.reply.Ok? then Some(step.reply.value)
          else None)])
      case WriteCheckpointBy(_, fate) =>
        var sealed := s.handles[a.actor].sealed;
        if sealed.None? then s else Moved(s, a.actor, WriteCheckpointTx(s.tables, m.saveId, cached, sealed.value, fate))
      case AdoptBy(_, worldLock, modLock, fate) =>
        var step := AdoptTx(s.tables, m, cached, worldLock, modLock, fate);
        System(step.tables, s.handles[a.actor := Handle(if step.reply.Ok? then step.reply.value else m, cached, None)])
      case ConnectAs(_, target) =>
        if HeadLoads(s.tables.heads, m)
        then s.(handles := s.handles[target := Handle(m, s.tables.heads[m.saveId].revision, None)]) else s
  }

  /** A run's history so far and its durable manifest. */
  datatype Chronicle = Chronicle(manifest: Manifest, history: History)

  ghost function Record(c: Chronicle, s: System, a: Act): Chronicle {
    if a.actor !in s.handles then c
    else
      var m := s.handles[a.actor].manifest;
      match a
      case CommitBy(_, r, fate) => if TakesEffect(s.tables, m, r, fate) then c.(history := c.history + [r]) else c
      case AdoptBy(_, worldLock, modLock, fate) =>
        c.(manifest := AdoptedManifest(s.tables, m, c.manifest, s.handles[a.actor].revision, worldLock, modLock, fate))
      case _ => c
  }

  /**
   * What the callers must respect: a handle that commits has the durable
   * manifest, and a request made for the current revision is well formed there.
   */
  ghost predicate Admissible(s: System, c: Chronicle, initial: RecordMap, a: Act) {
    a.CommitBy? && a.actor in s.handles ==>
      && s.handles[a.actor].manifest == c.manifest
      && (a.request.command.expectedRevision == |c.history| && ValidRequest(a.request) ==>
            WellFormed(RecordsAfter(initial, c.history), c.manifest.worldId, UsedEvents(c.history), |c.history|,
              a.request))
  }

  ghost predicate Consistent(s: System, c: Chronicle, initial: RecordMap) {
    && Represents(s.tables, c.manifest, initial, c.history)
    && SameSave(s.handles, c.manifest)
    && Sealed(s.handles, initial, c.history)
  }

  /** Whatever a handle has prepared is the fold at the revision it holds. */
  ghost predicate Sealed(handles: map<nat, Handle>, initial: RecordMap, h: History) {
    forall k :: k in handles && handles[k].sealed.Some? ==>
      SealedAt(initial, h, handles[k].revision, handles[k].sealed.value)
  }

  ghost predicate SameSave(handles: map<nat, Handle>, m: Manifest) {
    forall k :: k in handles ==> handles[k].manifest.saveId == m.saveId && handles[k].manifest.worldId == m.worldId
  }

  lemma CommitKeepsHistory(
    t: Tables, m: Manifest, cached: Revision, r: CommitRequest, fate: Fate, initial: RecordMap, h: History)
    requires Represents(t, m, initial, h)
    requires r.command.expectedRevision == |h| && ValidRequest(r) ==>
      WellFormed(RecordsAfter(initial, h), m.worldId, UsedEvents(h), |h|, r)
    ensures Represents(CommitTx(t, m, cached, r, fate).tables, m, initial, if TakesEffect(t, m, r, fate) then h + [r]
      else h)
  {
    CommitEffect(t, m, cached, r, fate);
    if TakesEffect(t, m, r, fate) {
      HeadIsOk(t.heads, m, |h|);
      CommitExtends(t, m, initial, h, r);
    }
  }

  /** What a step does to the tables and to the record of the run. */
  lemma StepTables(s: System, c: Chronicle, a: Act)
    requires a.actor in s.handles
    ensures var m, cached := s.handles[a.actor].manifest, s.handles[a.actor].revision;
      var t', c' := Perform(s, a).tables, Record(c, s, a);
      match a
      case CommitBy(_, r, fate) =>
        t' == CommitTx(s.tables, m, cached, r, fate).tables
        && c' == c.(history := if TakesEffect(s.tables, m, r, fate) then c.history + [r] else c.history)
      case WriteCheckpointBy(_, fate) =>
        && c' == c
        && t' == (if s.handles[a.actor].sealed.None? then s.tables
                  else WriteCheckpointTx(s.tables, m.saveId, cached, s.handles[a.actor].sealed.value, fate).tables)
      case AdoptBy(_, worldLock, modLock, fate) =>
        t' == AdoptTx(s.tables, m, cached, worldLock, modLock, fate).tables
        && c' == c.(manifest := AdoptedManifest(s.tables, m, c.manifest, cached, worldLock, modLock, fate))
      case _ => t' == s.tables && c' == c
  {}

  /** Every step keeps the tables representing the run's history. */
  lemma StepKeepsHistory(s: System, c: Chronicle, initial: RecordMap, a: Act)
    requires Consistent(s, c, initial) && Admissible(s, c, initial, a) && a.actor in s.handles
    ensures Represents(Perform(s, a).tables, Record(c, s, a).manifest, initial, Record(c, s, a).history)
  {
    var m, cached := s.handles[a.actor].manifest, s.handles[a.actor].revision;
    StepTables(s, c, a);
    if a.CommitBy? {
      CommitKeepsHistory(s.tables, m, cached, a.request, a.fate, initial, c.history);
    } else if a.WriteCheckpointBy? && s.handles[a.actor].sealed.Some? {
      SealedCheckpointKeepsHistory(s.tables, c.manifest, cached, s.handles[a.actor].sealed.value, a.fate, initial,
        c.history);
    } else if a.AdoptBy? {
      AdoptKeepsHistory(s.tables, m, c.manifest, cached, a.worldLock, a.modLock, a.fate, initial, c.history);
    }
  }

  lemma StepKeepsHandles(s: System, c: Chronicle, a: Act)
    requires SameSave(s.handles, c.manifest)
    ensures SameSave(Perform(s, a).handles, Record(c, s, a).manifest)
    ensures c.history <= Record(c, s, a).history
  {}

  /** Only preparing seals a checkpoint, and later commits leave it sealed. */
  lemma StepKeepsSealed(s: System, c: Chronicle, initial: RecordMap, a: Act)
    requires Consistent(s, c, initial) && c.history <= Record(c, s, a).history
    ensures Sealed(Perform(s, a).handles, initial, Record(c, s, a).history)
  {
    hide Represents, PrepareCheckpointTx, WriteCheckpointTx, CommitTx, ResolveTx, LoadResult, CheckpointEnvelopes,
      RecordsAfter;
    var s', h' := Perform(s, a), Record(c, s, a).history;
    if a.actor in s.handles && a.PrepareCheckpointBy? {
      var m, cached := s.handles[a.actor].manifest, s.handles[a.actor].revision;
      PreparedIsFold(s.tables, m, c.manifest, cached, a.records, initial, c.history);
    }
    forall k | k in s'.handles && s'.handles[k].sealed.Some?
      ensures SealedAt(initial, h', s'.handles[k].revision, s'.handles[k].sealed.value)
    {
      if k in s.handles && s'.handles[k] == s.handles[k] {
        assert h'[..s.handles[k].revision] == c.history[..s.handles[k].revision];
      }
    }
  }

  lemma StepKeepsConsistent(s: System, c: Chronicle, initial: RecordMap, a: Act)
    requires Consistent(s, c, initial) && Admissible(s, c, initial, a)
    ensures Consistent(Perform(s, a), Record(c, s, a), initial)
    ensures c.history <= Record(c, s, a).history
  {
    StepKeepsHandles(s, c, a);
    StepKeepsSealed(s, c, initial, a);
    if a.actor in s.handles {
      StepKeepsHistory(s, c, initial, a);
    }
  }

  ghost function PerformAll(s: System, run: seq<Act>): System
    decreases |run|
  {
    if run == [] then s else PerformAll(Perform(s, run[0]), run[1..])
  }

  ghost function RecordAll(c: Chronicle, s: System, run: seq<Act>): Chronicle
    decreases |run|
  {
    if run == [] then c else RecordAll(Record(c, s, run[0]), Perform(s, run[0]), run[1..])
  }

  ghost predicate AdmissibleRun(s: System, c: Chronicle, initial: RecordMap, run: seq<Act>)
    decreases |run|
  {
    run != [] ==>
      && Admissible(s, c, initial, run[0])
      && AdmissibleRun(Perform(s, run[0]), Record(c, s, run[0]), initial, run[1..])
  }

  /** Every interleaving keeps the tables representing the history of commits that took effect. */
  lemma {:induction false} RunKeepsConsistent(s: System, c: Chronicle, initial: RecordMap, run: seq<Act>)
    requires Consistent(s, c, initial) && AdmissibleRun(s, c, initial, run)
    ensures Consistent(PerformAll(s, run), RecordAll(c, s, run), initial)
    ensures c.history <= RecordAll(c, s, run).history
    decreases |run|
  {
    if run != [] {
      StepKeepsConsistent(s, c, initial, run[0]);
      RunKeepsConsistent(Perform(s, run[0]), Record(c, s, run[0]), initial, run[1..]);
    }
  }

  /** Loading at the end of any run returns the fold of everything committed. */
  lemma RunLoadsFold(s: System, c: Chronicle, initial: RecordMap, run: seq<Act>)
    requires Consistent(s, c, initial) && AdmissibleRun(s, c, initial, run)
    ensures var end := RecordAll(c, s, run);
      LoadResult(PerformAll(s, run).tables, end.manifest) == Some(SavedState(end.manifest, initial, end.history))
  {
    RunKeepsConsistent(s, c, initial, run);
    var end := RecordAll(c, s, run);
    LoadIsFold(PerformAll(s, run).tables, end.manifest, initial, end.history);
  }

  /**
   * A commit reported failed but applied, or applied and reported, is found
   * again with its original outcome after any further run.
   */
  lemma CommittedForever(
    s: System, c: Chronicle, initial: RecordMap, a: Act, run: seq<Act>, cached: Revision, fate: Fate)
    requires Consistent(s, c, initial)
    requires a.CommitBy? && a.actor in s.handles
      && TakesEffect(s.tables, s.handles[a.actor].manifest, a.request, a.fate)
    requires AdmissibleRun(s, c, initial, [a] + run) && fate != Unavailable
    ensures var t, m := PerformAll(s, [a] + run).tables, RecordAll(c, s, [a] + run).manifest;
      && CommitTx(t, m, cached, a.request, fate) == Step(t, cached, Ok(AlreadyCommitted(a.request.outcome)))
      && ResolveTx(t, m, cached, a.request.command, true) == Step(t, cached, Ok(ResolvedCommitted(a.request.outcome)))
  {
    var s1, c1 := Perform(s, a), Record(c, s, a);
    assert ([a] + run)[0] == a && ([a] + run)[1..] == run;
    StepKeepsConsistent(s, c, initial, a);
    RunKeepsConsistent(s1, c1, initial, run);
    var t, end := PerformAll(s1, run).tables, RecordAll(c1, s1, run);
    assert end.history[|c.history|] == a.request;
    RetryReturnsOriginal(t, end.manifest, initial, end.history, |c.history|, cached, a.request, fate);
  }

  // ------------------------------------------- a save nobody can load again

  /** No head validates. */
  ghost predicate Unloadable(t: Tables) {
    forall k :: k in t.heads ==> !HeadOk(t.heads[k])
  }

  lemma StepKeepsUnloadable(s: System, a: Act)
    requires Unloadable(s.tables)
    ensures Unloadable(Perform(s, a).tables)
  {
    hide HeadOk, LoadResult, EnvelopesOf, ListingFault, ValidManifest, Validate, WithCommit, KeyCollision;
  }

  /** Once no head validates, no handle can load after any further run, whether its steps are admissible or not. */
  lemma {:induction false} NeverLoadableAgain(s: System, run: seq<Act>, m: Manifest)
    requires Unloadable(s.tables)
    ensures Unloadable(PerformAll(s, run).tables) && LoadResult(PerformAll(s, run).tables, m).None?
    decreases |run|
  {
    hide HeadOk;
    if run == [] {
      NoHeadNoLoad(s.tables, m);
    } else {
      StepKeepsUnloadable(s, run[0]);
      NeverLoadableAgain(Perform(s, run[0]), run[1..], m);
    }
  }

  lemma NoHeadNoLoad(t: Tables, m: Manifest)
    requires Unloadable(t)
    ensures LoadResult(t, m).None?
  {
    hide HeadOk, Projected;
  }

  /** The adoption after which a handle's manifest is no longer the durable one. */
  function LostAdoption(actor: nat, worldLock: WorldLock, modLock: seq<LockedMod>): Act {
    AdoptBy(actor, worldLock, modLock, LostAfter)
  }

  lemma LostAdoptionLeavesStale(
    s: System, c: Chronicle, initial: RecordMap, actor: nat, worldLock: WorldLock, modLock: seq<LockedMod>)
    requires Represents(s.tables, c.manifest, initial, c.history)
    requires actor in s.handles && s.handles[actor] == Handle(c.manifest, |c.history|, None)
    requires var m := c.manifest.(worldLock := worldLock, modLock := modLock); ValidManifest(m) && m != c.manifest
    ensures var m := c.manifest.(worldLock := worldLock, modLock := modLock);
      && Record(c, s, LostAdoption(actor, worldLock, modLock)) == c.(manifest := m)
      && Represents(Perform(s, LostAdoption(actor, worldLock, modLock)).tables, m, initial, c.history)
      && Perform(s, LostAdoption(actor, worldLock, modLock)).handles == s.handles
  {
    var m, n := c.manifest, |c.history|;
    HeadStands(s.tables, m, initial, c.history);
    AdoptKeepsHistory(s.tables, m, m, n, worldLock, modLock, LostAfter, initial, c.history);
    hide Represents;
    LostAdoptionMoves(s, c, actor, worldLock, modLock);
  }

  /** What the adoption does to the run: new tables and manifest, and the handle as it was. */
  lemma LostAdoptionMoves(s: System, c: Chronicle, actor: nat, worldLock: WorldLock, modLock: seq<LockedMod>)
    requires HeadLoads(s.tables.heads, c.manifest) && s.tables.heads[c.manifest.saveId].revision == |c.history|
    requires actor in s.handles && s.handles[actor] == Handle(c.manifest, |c.history|, None)
    requires var m := c.manifest.(worldLock := worldLock, modLock := modLock); ValidManifest(m) && m != c.manifest
    ensures var m, n := c.manifest.(worldLock := worldLock, modLock := modLock), |c.history|;
      && Record(c, s, LostAdoption(actor, worldLock, modLock)) == c.(manifest := m)
      && AdoptedManifest(s.tables, c.manifest, c.manifest, n, worldLock, modLock, LostAfter) == m
      && Perform(s, LostAdoption(actor, worldLock, modLock)).tables
         == AdoptTx(s.tables, c.manifest, n, worldLock, modLock, LostAfter).tables
      && Perform(s, LostAdoption(actor, worldLock, modLock)).handles == s.handles
  {
    LostAdoptionWrites(s.tables, c.manifest, |c.history|, worldLock, modLock);
    hide AdoptTx, AdoptedManifest, HeadLoads, ValidManifest;
  }

  lemma LostAdoptionWrites(t: Tables, m: Manifest, n: nat, worldLock: WorldLock, modLock: seq<LockedMod>)
    requires HeadLoads(t.heads, m) && t.heads[m.saveId].revision == n
    requires var candidate := m.(worldLock := worldLock, modLock := modLock); ValidManifest(candidate) && candidate != m
    ensures AdoptedManifest(t, m, m, n, worldLock, modLock, LostAfter) == m.(worldLock := worldLock, modLock := modLock)
    ensures AdoptTx(t, m, n, worldLock, modLock, LostAfter).reply == Err(Backend)
  {}

  /**
   * A handle whose adoption was reported failed but took effect commits once
   * more, is told the commit succeeded, and no run after that loads the save
   * under any manifest.
   */
  lemma LostAdoptionBreaksSave(
    s: System, c: Chronicle, initial: RecordMap, actor: nat, worldLock: WorldLock, modLock: seq<LockedMod>,
    r: CommitRequest, run: seq<Act>, m: Manifest)
    requires Represents(s.tables, c.manifest, initial, c.history)
    requires actor in s.handles && s.handles[actor] == Handle(c.manifest, |c.history|, None)
    requires var m := c.manifest.(worldLock := worldLock, modLock := modLock); ValidManifest(m) && m != c.manifest
    requires ValidRequest(r) && r.command.expectedRevision == |c.history| < I64_MAX
      && DistinctTranscripts(r.transcripts)
    requires r.command.actionId !in UsedActions(c.history)
    ensures var adopted := Perform(s, LostAdoption(actor, worldLock, modLock));
      && CommitTx(adopted.tables, c.manifest, |c.history|, r, Succeeds).reply == Ok(Committed(r.outcome))
      && LoadResult(PerformAll(Perform(adopted, CommitBy(actor, r, Succeeds)), run).tables, m).None?
  {
    hide Represents, HeadOk, KeyCollision, ValidManifest, AdoptTx, LoadResult, Validate;
    var adopt := LostAdoption(actor, worldLock, modLock);
    LostAdoptionLeavesStale(s, c, initial, actor, worldLock, modLock);
    var durable := c.manifest.(worldLock := worldLock, modLock := modLock);
    var adopted := Perform(s, adopt);
    StaleCommitLands(adopted.tables, durable, c.manifest, initial, c.history, r);
    NeverLoadableAgain(Perform(adopted, CommitBy(actor, r, Succeeds)), run, m);
  }

  /** A commit by a handle with a stale manifest is reported and leaves no valid head. */
  lemma StaleCommitLands(
    t: Tables, durable: Manifest, cached: Manifest, initial: RecordMap, h: History, r: CommitRequest)
    requires Represents(t, durable, initial, h) && cached.saveId == durable.saveId && cached != durable
    requires ValidRequest(r) && r.command.expectedRevision == |h| < I64_MAX && DistinctTranscripts(r.transcripts)
    requires r.command.actionId !in UsedActions(h)
    ensures CommitTx(t, cached, |h|, r, Succeeds).reply == Ok(Committed(r.outcome))
    ensures Unloadable(CommitTx(t, cached, |h|, r, Succeeds).tables)
  {
    hide GoodSave, KeyCollision, UsedActions, CheckpointsRepresent, OpsRepresent, EventsRepresent,
      TranscriptsRepresent, ValidManifest;
    HeadStands(t, durable, initial, h);
    TablesActions(t, durable, initial, h);
    NoKeyReused(t, durable, initial, h, r);
    ValidRequestIsBlock(r);
    assert TakesEffect(t, cached, r, Succeeds);
    HeadValidIffManifestsAgree(t, durable, cached, initial, h, r, Succeeds);
    assert CommitTx(t, cached, |h|, r, Succeeds).tables.heads.Keys == t.heads.Keys;
  }

  lemma TablesActions(t: Tables, m: Manifest, initial: RecordMap, h: History)
    requires Represents(t, m, initial, h)
    ensures t.actions.Keys == UsedActions(h)
  {
    hide GoodSave, UsedActions;
  }

  lemma NoKeyReused(t: Tables, m: Manifest, initial: RecordMap, h: History, r: CommitRequest)
    requires Represents(t, m, initial, h)
    requires ValidRequest(r) && r.command.expectedRevision == |h| && DistinctTranscripts(r.transcripts)
    ensures !KeyCollision(t, r)
  {
    hide GoodSave, KeyCollision, UsedActions;
    NoCollision(t, m.saveId, initial, h, r);
  }

  /** The rows of one revision are one contiguous block holding the request's ops. */
  ghost predicate BlockRows(rows: map<(nat, nat), OpRow>, revision: nat, r: CommitRequest) {
    && r.recordOps != []
    && (forall o :: 0 <= o < |r.recordOps| ==> (revision, o) in rows)
    && (forall k :: k in rows && k.0 == revision ==>
          k.1 < |r.recordOps| && rows[k].payload == r.recordOps[k.1] && rows[k].actionId == r.command.actionId)
  }

  /** One revision belongs to one action only. */
  ghost predicate OwnedBy(rows: map<ActionId, ActionRow>, revision: nat, action: ActionId) {
    && action in rows && rows[action].revision == revision
    && (forall a :: a in rows && rows[a].revision == revision ==> a == action)
  }

  lemma BlocksStored(rows: map<(nat, nat), OpRow>, saveId: nat, initial: RecordMap, worldId: nat, h: History)
    requires OpsRepresent(rows, saveId, h) && GoodHistory(initial, worldId, h)
    ensures forall i :: 0 <= i < |h| ==> BlockRows(rows, i + 1, h[i])
    ensures forall k :: k in rows ==> 1 <= k.0 <= |h|
  {
    hide GoodHistory, WellFormed;
    forall i | 0 <= i < |h|
      ensures BlockRows(rows, i + 1, h[i])
    {
      WellFormedIsValid(initial, worldId, h, i);
      ValidRequestIsBlock(h[i]);
    }
  }

  lemma ActionsOwnRevisions(rows: map<ActionId, ActionRow>, saveId: nat, initial: RecordMap, worldId: nat, h: History)
    requires ActionsRepresent(rows, saveId, h) && GoodHistory(initial, worldId, h)
    ensures forall i :: 0 <= i < |h| ==> OwnedBy(rows, i + 1, h[i].command.actionId)
    ensures forall a :: a in rows ==> 1 <= rows[a].revision <= |h|
  {
    forall a | a in rows
      ensures 1 <= rows[a].revision <= |h| && h[rows[a].revision - 1].command.actionId == a
    {
      assert a in UsedActions(h);
      var i :| 0 <= i < |h| && h[i].command.actionId == a;
      ActionStored(rows, saveId, initial, worldId, h, i);
    }
    forall i | 0 <= i < |h|
      ensures OwnedBy(rows, i + 1, h[i].command.actionId)
    {
      ActionStored(rows, saveId, initial, worldId, h, i);
    }
  }

  /**
   * Commit safety: head revision `n` means that each revision 1..n belongs to
   * exactly one action and holds one non-empty contiguous block of its
   * operations; there are no other actions and no other operations.
   */
  lemma CommitSafety(t: Tables, m: Manifest, initial: RecordMap, h: History)
    requires Represents(t, m, initial, h)
    ensures m.saveId in t.heads && t.heads[m.saveId].revision == |h|
    ensures forall i :: 0 <= i < |h| ==>
      OwnedBy(t.actions, i + 1, h[i].command.actionId) && BlockRows(t.recordOps, i + 1, h[i])
    ensures forall a :: a in t.actions ==> 1 <= t.actions[a].revision <= |h|
    ensures forall k :: k in t.recordOps ==> 1 <= k.0 <= |h|
  {
    ActionsOwnRevisions(t.actions, m.saveId, initial, m.worldId, h);
    BlocksStored(t.recordOps, m.saveId, initial, m.worldId, h);
  }
}
