/** What loading a save returns, and why it is the history's fold. */
module SaveLoading {
  import opened Outcomes
  import opened Ordering
  import opened Records
  import opened ChangeSets
  import opened Requests
  import opened SaveTables
  import opened SaveHistory

  datatype LoadedSave = LoadedSave(
    manifest: Manifest, revision: Revision, records: seq<DomainRecord>, events: seq<Event>,
    transcripts: seq<Transcript>)

  // ------------------------------------------------------------ the scans

  ghost predicate HeadLoads(heads: map<nat, HeadRow>, m: Manifest) {
    m.saveId in heads && HeadOk(heads[m.saveId]) && heads[m.saveId].manifest == m
  }

  ghost predicate CheckpointsLoad(rows: map<nat, CheckpointRow>, saveId: nat, head: int) {
    rows.Keys != {} && forall k :: k in rows ==> CheckpointOk(k, rows[k], saveId, head)
  }

  /** A stored checkpoint's records ascend by key and none is newer than it. */
  ghost predicate CheckpointOrdered(records: seq<Envelope>, revision: nat) {
    && (forall i :: 0 <= i < |records| ==> records[i].revision <= revision)
    && StrictlySortedBy(records, EnvelopeRank)
  }

  ghost predicate OpsLoad(rows: map<(nat, nat), OpRow>, saveId: nat, head: int) {
    forall k :: k in rows ==> OpOk(k, rows[k], saveId, head)
  }

  ghost predicate ActionsLoad(rows: map<ActionId, ActionRow>, saveId: nat, head: int) {
    forall k :: k in rows ==> ActionOk(k, rows[k], saveId) && rows[k].outcome.revision <= head
  }

  ghost predicate EventsLoad(rows: map<(nat, nat), EventRow>, saveId: nat, head: int) {
    && (forall k :: k in rows ==> EventOk(k, rows[k], saveId, head))
    && (forall k, l :: k in rows && l in rows && rows[k].payload.id == rows[l].payload.id ==> k == l)
  }

  ghost predicate TranscriptsLoad(rows: map<(nat, nat), TranscriptRow>, saveId: nat, head: int) {
    forall k :: k in rows ==> TranscriptOk(k, rows[k], saveId, head)
  }

  ghost predicate IsGreatest(m: nat, s: set<nat>) {
    m in s && forall x :: x in s ==> x <= m
  }

  ghost function Greatest(s: set<nat>): (m: nat)
    requires s != {}
    ensures IsGreatest(m, s)
  {
    var x :| x in s;
    if s == {x} then x
    else
      var rest := Greatest(s - {x});
      assert forall y :: y in s ==> y == x || y in s - {x};
      if rest <= x then x else rest
  }

  ghost function OpsAbove(rows: map<(nat, nat), OpRow>, revision: nat): seq<Op> {
    Arranged(set k | k in rows && k.0 > revision :: rows[k].payload, OpRank)
  }

  ghost predicate OpsHaveActions(ops: seq<Op>, actions: map<ActionId, ActionRow>) {
    forall i :: 0 <= i < |ops| ==>
      ops[i].actionId in actions && actions[ops[i].actionId].outcome.revision == ops[i].revision
  }

  ghost function StoredEvents(rows: map<(nat, nat), EventRow>): set<Event> {
    set k | k in rows :: rows[k].payload
  }

  ghost predicate EventsHaveActions(events: set<Event>, actions: map<ActionId, ActionRow>) {
    forall e :: e in events ==> e.actionId in actions && actions[e.actionId].outcome.revision == e.revision
  }

  predicate WorldIdentity(records: RecordMap, worldId: nat) {
    && (exists k :: k in records && records[k].WorldState? && records[k].worldId == worldId)
    && (forall k :: k in records && records[k].WorldState? ==> records[k].worldId == worldId)
  }

  /** The stored transcript versions of one identifier, by revision. */
  ghost function Versions(rows: map<(nat, nat), TranscriptRow>, id: nat): set<nat> {
    set k | k in rows && k.1 == id :: k.0
  }

  /** The newest stored version of every transcript. */
  ghost function CurrentTranscripts(rows: map<(nat, nat), TranscriptRow>): map<nat, Transcript> {
    map id | id in (set k | k in rows :: k.1) && Versions(rows, id) != {} && (Greatest(Versions(rows, id)), id) in rows
      :: rows[(Greatest(Versions(rows, id)), id)].payload
  }

  ghost predicate TranscriptsProject(records: RecordMap, current: map<nat, Transcript>) {
    forall id :: (id in current <==> RecordKey(TRANSCRIPT_TYPE, id) in records)
      && (id in current ==> records[RecordKey(TRANSCRIPT_TYPE, id)] == TranscriptItem(current[id]))
  }

  /** The first half of a load: head, checkpoint, log and actions, replayed and decoded. */
  ghost function LoadedRecords(t: Tables, m: Manifest): Option<RecordMap> {
    if !HeadLoads(t.heads, m) then None
    else
      var head := t.heads[m.saveId].revision;
      if !CheckpointsLoad(t.checkpoints, m.saveId, head) then None
      else
        var from := Greatest(t.checkpoints.Keys);
        var ops := OpsAbove(t.recordOps, from);
        var rebuilt := Rebuilt(from, t.checkpoints[from].records, ops);
        if || !CheckpointOrdered(t.checkpoints[from].records, from)
           || !OpsLoad(t.recordOps, m.saveId, head) || !ActionsLoad(t.actions, m.saveId, head)
           || !OpsHaveActions(ops, t.actions)
           || rebuilt.Err? || rebuilt.value.0 != head || !DecodableSet(rebuilt.value.1)
        then None
        else Some(Decoded(rebuilt.value.1))
  }

  /** The second half: the event and transcript projections of the replayed records. */
  ghost function Projected(t: Tables, m: Manifest, head: Revision, records: RecordMap): Option<LoadedSave> {
    var current := CurrentTranscripts(t.transcripts);
    if || !WorldIdentity(records, m.worldId)
       || !EventsLoad(t.events, m.saveId, head) || !EventsHaveActions(StoredEvents(t.events), t.actions)
       || !TranscriptsLoad(t.transcripts, m.saveId, head) || !TranscriptsProject(records, current)
    then None
    else Some(LoadedSave(m, head, Arranged(records.Values, RecordRank),
      Arranged(StoredEvents(t.events), EventRank), Arranged(current.Values, TranscriptRank)))
  }

  /** `SaveStore::load` by a handle caching manifest `m`; `None` is an error. */
  ghost function LoadResult(t: Tables, m: Manifest): Option<LoadedSave> {
    if LoadedRecords(t, m).None? then None
    else Projected(t, m, t.heads[m.saveId].revision, LoadedRecords(t, m).value)
  }

  // ------------------------------------------------- the history's fold

  ghost function CommittedEvents(h: History): set<Event> {
    set i, j | 0 <= i < |h| && 0 <= j < |h[i].events| :: h[i].events[j]
  }

  ghost function RecordTranscripts(records: RecordMap): set<Transcript> {
    set k | k in records && records[k].TranscriptItem? :: records[k].transcript
  }

  /** The state a history stands for. */
  ghost function SavedState(m: Manifest, initial: RecordMap, h: History): LoadedSave {
    LoadedSave(m, |h|,
      Arranged(RecordsAfter(initial, h).Values, RecordRank),
      Arranged(CommittedEvents(h), EventRank),
      Arranged(RecordTranscripts(RecordsAfter(initial, h)), TranscriptRank))
  }

  // ------------------------------------------------------ replaying the log

  function OpsFrom(h: History, c: nat): seq<Op> {
    if |h| <= c then [] else OpsFrom(h[..|h| - 1], c) + h[|h| - 1].recordOps
  }

  ghost predicate HasOp(h: History, op: Op) {
    1 <= op.revision <= |h| && op.order < |h[op.revision - 1].recordOps| && h[op.revision - 1].recordOps[op.order] == op
  }

  lemma {:induction false} OpsFromFacts(initial: RecordMap, worldId: nat, h: History, c: nat)
    requires GoodHistory(initial, worldId, h)
    ensures forall op :: op in OpsFrom(h, c) <==> HasOp(h, op) && op.revision > c
    ensures StrictlySortedBy(OpsFrom(h, c), OpRank)
    decreases |h|
  {
    if |h| > c {
      var prefix, last := h[..|h| - 1], h[|h| - 1];
      OpsFromFacts(initial, worldId, prefix, c);
      ValidRequestIsBlock(last);
      forall op
        ensures op in OpsFrom(h, c) <==> HasOp(h, op) && op.revision > c
      {
        assert HasOp(prefix, op) <==> HasOp(h, op) && op.revision < |h|;
        assert op in last.recordOps <==> HasOp(h, op) && op.revision == |h|;
      }
      forall i, j | 0 <= i < j < |OpsFrom(h, c)|
        ensures Before(OpRank(OpsFrom(h, c)[i]), OpRank(OpsFrom(h, c)[j]))
      {
        var early := OpsFrom(prefix, c);
        if i < |early| <= j {
          assert early[i] in early;
        }
      }
    }
  }

  /** Replaying every block above a checkpoint gives the fold of the history. */
  lemma {:induction false} ReplayHistory(initial: RecordMap, worldId: nat, h: History, c: nat, seed: RecordSet)
    requires GoodInitial(initial, worldId) && GoodHistory(initial, worldId, h)
    requires c <= |h| <= I64_MAX
    requires DecodableSet(seed) && Decoded(seed) == RecordsAfter(initial, h[..c])
    ensures var end := Replay(ReplayState(c, None, 0, seed), OpsFrom(h, c));
      && end.Ok? && end.value.revision == |h|
      && DecodableSet(end.value.records) && Decoded(end.value.records) == RecordsAfter(initial, h)
    decreases |h|
  {
    var start := ReplayState(c, None, 0, seed);
    if |h| == c {
      assert h[..c] == h;
    } else {
      var prefix, last := h[..|h| - 1], h[|h| - 1];
      assert prefix[..c] == h[..c];
      ReplayHistory(initial, worldId, prefix, c, seed);
      var middle := Replay(start, OpsFrom(prefix, c)).value;
      ReplaySplits(start, OpsFrom(prefix, c), last.recordOps);
      ValidRequestIsBlock(last);
      assert forall k :: k in Decoded(middle.records) <==> k in middle.records;
      ReplayBlock(middle, last.recordOps, |h|, last.command.actionId);
      DecodingCommutes(middle.records, last.recordOps);
    }
  }

  ghost predicate ListsRecords(checkpoint: seq<Envelope>, records: RecordMap, revision: nat) {
    && (forall i :: 0 <= i < |checkpoint| ==>
          && checkpoint[i].key in records
          && checkpoint[i] == ToEnvelope(records[checkpoint[i].key], revision, None))
    && (forall i, j :: 0 <= i < j < |checkpoint| ==> checkpoint[i].key != checkpoint[j].key)
    && (forall k :: k in records ==> exists i :: 0 <= i < |checkpoint| && checkpoint[i].key == k)
  }

  lemma CheckpointLists(records: RecordMap, worldId: nat, revision: nat)
    requires GoodRecords(records, worldId)
    ensures CheckpointOrdered(CheckpointEnvelopes(records, revision), revision)
    ensures ListsRecords(CheckpointEnvelopes(records, revision), records, revision)
  {
    var s := set k | k in records :: ToEnvelope(records[k], revision, None);
    var checkpoint := CheckpointEnvelopes(records, revision);
    forall x, y | x in s && y in s && EnvelopeRank(x) == EnvelopeRank(y)
      ensures x == y
    {
      assert x.key == y.key;
    }
    ArrangedFacts(s, EnvelopeRank);
    forall i | 0 <= i < |checkpoint|
      ensures checkpoint[i].key in records && checkpoint[i] == ToEnvelope(records[checkpoint[i].key], revision, None)
    {
      assert checkpoint[i] in s;
    }
    forall i, j | 0 <= i < j < |checkpoint|
      ensures checkpoint[i].key != checkpoint[j].key
    {
      assert Before(EnvelopeRank(checkpoint[i]), EnvelopeRank(checkpoint[j]));
    }
    forall k | k in records
      ensures exists i :: 0 <= i < |checkpoint| && checkpoint[i].key == k
    {
      assert ToEnvelope(records[k], revision, None) in checkpoint;
    }
  }

  /** A checkpoint decodes to the records it was taken of, whatever its revision. */
  lemma CheckpointSeeds(checkpoint: seq<Envelope>, records: RecordMap, worldId: nat, revision: nat)
    requires GoodRecords(records, worldId) && ListsRecords(checkpoint, records, revision)
    ensures SeedRecords(revision, checkpoint, map[]).Ok?
    ensures var seed := SeedRecords(revision, checkpoint, map[]).value;
      DecodableSet(seed) && Decoded(seed) == records
  {
    SeedAccepts(revision, checkpoint, map[]);
    var seed := SeedRecords(revision, checkpoint, map[]).value;
    forall k
      ensures k in seed <==> k in records
      ensures k in seed ==> seed[k] == ToEnvelope(records[k], revision, None)
    {
      if k in records {
        var i :| 0 <= i < |checkpoint| && checkpoint[i].key == k;
        assert seed[checkpoint[i].key] == checkpoint[i];
      }
    }
  }

  // ---------------------------------------------------------- projections

  lemma OpsSelected(rows: map<(nat, nat), OpRow>, saveId: nat, initial: RecordMap, worldId: nat, h: History, c: nat)
    requires OpsRepresent(rows, saveId, h) && GoodHistory(initial, worldId, h)
    ensures OpsLoad(rows, saveId, |h|)
    ensures OpsAbove(rows, c) == OpsFrom(h, c)
  {
    hide OpsFrom, Arranged, GoodHistory, WellFormed;
    forall k | k in rows
      ensures OpOk(k, rows[k], saveId, |h|)
      ensures HasOp(h, rows[k].payload) && rows[k].payload.revision == k.0 && rows[k].payload.order == k.1
    {
      GoodHistoryAt(initial, worldId, h, k.0 - 1);
      ValidRequestIsBlock(h[k.0 - 1]);
    }
    var s := set k | k in rows && k.0 > c :: rows[k].payload;
    OpsFromFacts(initial, worldId, h, c);
    forall op
      ensures op in s <==> op in OpsFrom(h, c)
    {
      if HasOp(h, op) && op.revision > c {
        var k := (op.revision, op.order);
        assert k in rows && rows[k].payload == op;
      }
    }
    forall x, y | x in s && y in s && OpRank(x) == OpRank(y)
      ensures x == y
    {
      assert HasOp(h, x) && HasOp(h, y);
    }
    ArrangedUnique(s, OpRank, OpsFrom(h, c));
  }

  /** A committed action's row is stored under its identifier. */
  lemma ActionStored(rows: map<ActionId, ActionRow>, saveId: nat, initial: RecordMap, worldId: nat, h: History, i: nat)
    requires ActionsRepresent(rows, saveId, h) && GoodHistory(initial, worldId, h) && i < |h|
    ensures h[i].command.actionId in rows
    ensures rows[h[i].command.actionId] == ActionRowFor(saveId, h[i])
    ensures ActionOk(h[i].command.actionId, rows[h[i].command.actionId], saveId)
    ensures h[i].outcome.revision == i + 1 && h[i].outcome.actionId == h[i].command.actionId
  {
    GoodHistoryAt(initial, worldId, h, i);
  }

  lemma ActionsSelected(
    rows: map<ActionId, ActionRow>, saveId: nat, initial: RecordMap, worldId: nat, h: History, c: nat)
    requires ActionsRepresent(rows, saveId, h) && GoodHistory(initial, worldId, h)
    ensures ActionsLoad(rows, saveId, |h|)
    ensures OpsHaveActions(OpsFrom(h, c), rows)
    ensures EventsHaveActions(CommittedEvents(h), rows)
  {
    hide ActionOk, GoodHistory, Validate, OpsFrom, ActionsRepresent;
    StoredActionsLoad(rows, saveId, initial, worldId, h);
    OpsFromFacts(initial, worldId, h, c);
    forall i | 0 <= i < |OpsFrom(h, c)|
      ensures OpsFrom(h, c)[i].actionId in rows
      ensures rows[OpsFrom(h, c)[i].actionId].outcome.revision == OpsFrom(h, c)[i].revision
    {
      var op := OpsFrom(h, c)[i];
      assert op in OpsFrom(h, c);
      ActionStored(rows, saveId, initial, worldId, h, op.revision - 1);
      GoodHistoryAt(initial, worldId, h, op.revision - 1);
      ValidRequestIsBlock(h[op.revision - 1]);
    }
    forall e | e in CommittedEvents(h)
      ensures e.actionId in rows && rows[e.actionId].outcome.revision == e.revision
    {
      var i, j :| 0 <= i < |h| && 0 <= j < |h[i].events| && h[i].events[j] == e;
      ActionStored(rows, saveId, initial, worldId, h, i);
      GoodHistoryAt(initial, worldId, h, i);
      ValidRequestIsBlock(h[i]);
    }
  }

  lemma StoredActionsLoad(rows: map<ActionId, ActionRow>, saveId: nat, initial: RecordMap, worldId: nat, h: History)
    requires ActionsRepresent(rows, saveId, h) && GoodHistory(initial, worldId, h)
    ensures ActionsLoad(rows, saveId, |h|)
  {
    hide ActionOk, GoodHistory;
    forall k | k in rows
      ensures ActionOk(k, rows[k], saveId) && rows[k].outcome.revision <= |h|
    {
      assert k in UsedActions(h);
      var i :| 0 <= i < |h| && h[i].command.actionId == k;
      ActionStored(rows, saveId, initial, worldId, h, i);
    }
  }

  lemma WellFormedIsValid(initial: RecordMap, worldId: nat, h: History, i: nat)
    requires GoodHistory(initial, worldId, h) && i < |h|
    ensures ValidRequest(h[i]) && h[i].command.expectedRevision == i
  {
    hide GoodHistory;
    GoodHistoryAt(initial, worldId, h, i);
  }

  lemma EventsSelected(rows: map<(nat, nat), EventRow>, saveId: nat, initial: RecordMap, worldId: nat, h: History)
    requires EventsRepresent(rows, saveId, h) && GoodHistory(initial, worldId, h)
    ensures EventsLoad(rows, saveId, |h|)
    ensures StoredEvents(rows) == CommittedEvents(h)
  {
    hide GoodHistory, WellFormed;
    forall e
      ensures e in CommittedEvents(h) <==> HasEvent(h, e)
    {
      if e in CommittedEvents(h) {
        var i, j :| 0 <= i < |h| && 0 <= j < |h[i].events| && h[i].events[j] == e;
        WellFormedIsValid(initial, worldId, h, i);
        assert e in h[i].events;
      }
    }
    forall e
      ensures e in StoredEvents(rows) <==> HasEvent(h, e)
    {
      if HasEvent(h, e) {
        assert rows[(e.revision, e.id)].payload == e;
      }
    }
    forall k, l | k in rows && l in rows && rows[k].payload.id == rows[l].payload.id
      ensures k == l
    {
      EventRevisionsAgree(initial, worldId, h, rows[k].payload, rows[l].payload);
      EventRevisionsAgree(initial, worldId, h, rows[l].payload, rows[k].payload);
    }
  }

  /** An event identifier is used at one revision only. */
  lemma EventRevisionsAgree(initial: RecordMap, worldId: nat, h: History, a: Event, b: Event)
    requires GoodHistory(initial, worldId, h)
    requires HasEvent(h, a) && HasEvent(h, b) && a.id == b.id
    ensures !(a.revision < b.revision)
  {
    if a.revision < b.revision {
      EventIsUsed(h, a, b.revision - 1);
      GoodHistoryAt(initial, worldId, h, b.revision - 1);
      assert false;
    }
  }

  lemma EventIsUsed(h: History, e: Event, n: nat)
    requires HasEvent(h, e) && e.revision <= n <= |h|
    ensures e.id in UsedEvents(h[..n])
  {
    var at := e.revision - 1;
    var j :| 0 <= j < |h[at].events| && h[at].events[j] == e;
    assert h[..n][at].events[j].id == e.id;
  }

  /** `x` is the newest version of its transcript, written at `n`. */
  ghost predicate NewestWrite(initial: RecordMap, h: History, n: nat, x: Transcript) {
    && WroteTranscript(initial, h, n, x)
    && forall n': nat, x' :: WroteTranscript(initial, h, n', x') && x'.id == x.id ==> n' <= n
  }

  /** What one commit does to a transcript: writes its record and version, or neither. */
  lemma CommittedTranscript(
    prior: RecordMap, worldId: nat, used: set<EventId>, n: nat, r: CommitRequest, id: nat) returns (written: bool)
    requires GoodRecords(prior, worldId) && WellFormed(prior, worldId, used, n, r)
    ensures var k, after := RecordKey(TRANSCRIPT_TYPE, id), AfterDomain(prior, r.recordOps);
      if written then
        k in after && after[k].TranscriptItem? && after[k].transcript.id == id && after[k].transcript in r.transcripts
      else
        && (forall x :: x in r.transcripts ==> x.id != id)
        && (k in after <==> k in prior) && (k in prior ==> after[k] == prior[k])
  {
    var k, ops := RecordKey(TRANSCRIPT_TYPE, id), r.recordOps;
    hide Validate, AfterDomain, ValidRecord;
    AfterDomainPointwise(prior, ops, k);
    written := false;
    if i :| 0 <= i < |ops| && MutationKey(ops[i].mutation) == k {
      written := true;
      assert ops[i].mutation.Upsert?;
      assert Decodable(ops[i].mutation.record);
      assert UpsertsTranscript(ops, ops[i].mutation.record.payload.transcript);
    } else {
      forall x | x in r.transcripts
        ensures x.id != id
      {
        assert UpsertsTranscript(ops, x);
        var i :| 0 <= i < |ops| && ops[i].mutation.Upsert? && ops[i].mutation.record.payload == TranscriptItem(x);
        assert Decodable(ops[i].mutation.record);
        assert MutationKey(ops[i].mutation) == KeyOf(TranscriptItem(x));
      }
    }
  }

  /** The transcript records of a history are its newest transcript versions. */
  lemma {:induction false} TranscriptRecordsAreNewest(
    initial: RecordMap, worldId: nat, h: History, id: nat) returns (n: nat)
    requires GoodInitial(initial, worldId) && GoodHistory(initial, worldId, h)
    ensures var k := RecordKey(TRANSCRIPT_TYPE, id);
      if k in RecordsAfter(initial, h) then
        && RecordsAfter(initial, h)[k].TranscriptItem? && RecordsAfter(initial, h)[k].transcript.id == id
        && NewestWrite(initial, h, n, RecordsAfter(initial, h)[k].transcript)
      else
        forall n': nat, x :: WroteTranscript(initial, h, n', x) ==> x.id != id
    decreases |h|
  {
    hide WellFormed, AfterDomain, GoodRecords, UsedEvents, UsedActions;
    if h == [] {
      n := 0;
      InitialTranscript(initial, worldId, id);
    } else {
      var prefix, last := h[..|h| - 1], h[|h| - 1];
      var before := TranscriptRecordsAreNewest(initial, worldId, prefix, id);
      RecordsStayGood(initial, worldId, prefix);
      forall n': nat, x
        ensures WroteTranscript(initial, h, n', x) <==>
          (n' == |h| && x in last.transcripts) || (n' < |h| && WroteTranscript(initial, prefix, n', x))
      {}
      var written := CommittedTranscript(RecordsAfter(initial, prefix), worldId, UsedEvents(prefix), |prefix|, last,
        id);
      n := if written then |h| else before;
    }
  }

  lemma InitialTranscript(initial: RecordMap, worldId: nat, id: nat)
    requires GoodInitial(initial, worldId)
    ensures var k := RecordKey(TRANSCRIPT_TYPE, id);
      if k in initial then
        && initial[k].TranscriptItem? && initial[k].transcript.id == id
        && NewestWrite(initial, [], 0, initial[k].transcript)
      else
        forall n': nat, x :: WroteTranscript(initial, [], n', x) ==> x.id != id
  {}

  lemma CurrentTranscriptIs(
    rows: map<(nat, nat), TranscriptRow>, saveId: nat, initial: RecordMap, h: History, n: nat, x: Transcript)
    requires TranscriptsRepresent(rows, saveId, initial, h)
    requires NewestWrite(initial, h, n, x)
    ensures x.id in CurrentTranscripts(rows) && CurrentTranscripts(rows)[x.id] == x
  {
    assert (n, x.id) in rows && rows[(n, x.id)].payload == x;
    var versions := Versions(rows, x.id);
    assert n in versions;
    forall v | v in versions
      ensures v <= n
    {
      assert WroteTranscript(initial, h, v, rows[(v, x.id)].payload);
    }
    assert Greatest(versions) == n;
  }

  lemma TranscriptRowsLoad(
    rows: map<(nat, nat), TranscriptRow>, saveId: nat, initial: RecordMap, worldId: nat, h: History)
    requires TranscriptsRepresent(rows, saveId, initial, h)
    requires GoodInitial(initial, worldId) && GoodHistory(initial, worldId, h)
    ensures TranscriptsLoad(rows, saveId, |h|)
  {
    forall k | k in rows
      ensures TranscriptOk(k, rows[k], saveId, |h|)
    {
      assert WroteTranscript(initial, h, k.0, rows[k].payload);
      if k.0 > 0 {
        GoodHistoryAt(initial, worldId, h, k.0 - 1);
      }
    }
  }

  lemma CurrentWasWritten(rows: map<(nat, nat), TranscriptRow>, saveId: nat, initial: RecordMap, h: History, id: nat)
    requires TranscriptsRepresent(rows, saveId, initial, h)
    ensures id in CurrentTranscripts(rows) ==>
      exists n: nat, x :: WroteTranscript(initial, h, n, x) && x.id == id
  {
    if id in CurrentTranscripts(rows) {
      var v := Greatest(Versions(rows, id));
      assert WroteTranscript(initial, h, v, rows[(v, id)].payload);
    }
  }

  lemma TranscriptProjectsAt(
    rows: map<(nat, nat), TranscriptRow>, saveId: nat, initial: RecordMap, worldId: nat, h: History, id: nat)
    requires TranscriptsRepresent(rows, saveId, initial, h)
    requires GoodInitial(initial, worldId) && GoodHistory(initial, worldId, h)
    ensures id in CurrentTranscripts(rows) <==> RecordKey(TRANSCRIPT_TYPE, id) in RecordsAfter(initial, h)
    ensures id in CurrentTranscripts(rows) ==>
      RecordsAfter(initial, h)[RecordKey(TRANSCRIPT_TYPE, id)] == TranscriptItem(CurrentTranscripts(rows)[id])
  {
    var records := RecordsAfter(initial, h);
    var n := TranscriptRecordsAreNewest(initial, worldId, h, id);
    var k := RecordKey(TRANSCRIPT_TYPE, id);
    CurrentWasWritten(rows, saveId, initial, h, id);
    if k in records {
      CurrentTranscriptIs(rows, saveId, initial, h, n, records[k].transcript);
    }
  }

  lemma TranscriptValues(records: RecordMap, worldId: nat, current: map<nat, Transcript>)
    requires GoodRecords(records, worldId) && TranscriptsProject(records, current)
    ensures current.Values == RecordTranscripts(records)
  {
    forall x
      ensures x in current.Values <==> x in RecordTranscripts(records)
    {
      if x in current.Values {
        var id :| id in current && current[id] == x;
        assert records[RecordKey(TRANSCRIPT_TYPE, id)] == TranscriptItem(x);
      }
      if x in RecordTranscripts(records) {
        var k :| k in records && records[k] == TranscriptItem(x);
        assert k == RecordKey(TRANSCRIPT_TYPE, x.id);
        assert current[x.id] == x;
      }
    }
  }

  lemma TranscriptsSelected(
    rows: map<(nat, nat), TranscriptRow>, saveId: nat, initial: RecordMap, worldId: nat, h: History)
    requires TranscriptsRepresent(rows, saveId, initial, h)
    requires GoodInitial(initial, worldId) && GoodHistory(initial, worldId, h)
    ensures TranscriptsLoad(rows, saveId, |h|)
    ensures TranscriptsProject(RecordsAfter(initial, h), CurrentTranscripts(rows))
    ensures CurrentTranscripts(rows).Values == RecordTranscripts(RecordsAfter(initial, h))
  {
    TranscriptRowsLoad(rows, saveId, initial, worldId, h);
    forall id
      ensures id in CurrentTranscripts(rows) <==> RecordKey(TRANSCRIPT_TYPE, id) in RecordsAfter(initial, h)
      ensures id in CurrentTranscripts(rows) ==>
        RecordsAfter(initial, h)[RecordKey(TRANSCRIPT_TYPE, id)] == TranscriptItem(CurrentTranscripts(rows)[id])
    {
      TranscriptProjectsAt(rows, saveId, initial, worldId, h, id);
    }
    RecordsStayGood(initial, worldId, h);
    TranscriptValues(RecordsAfter(initial, h), worldId, CurrentTranscripts(rows));
  }

  // -------------------------------------------------------------- theorems

  ghost predicate RebuildsTo(from: nat, checkpoint: seq<Envelope>, ops: seq<Op>, revision: nat, records: RecordMap) {
    && CheckpointOrdered(checkpoint, from)
    && var rebuilt := Rebuilt(from, checkpoint, ops);
       && rebuilt.Ok? && rebuilt.value.0 == revision
       && DecodableSet(rebuilt.value.1) && Decoded(rebuilt.value.1) == records
  }

  lemma RebuildsHistory(initial: RecordMap, worldId: nat, h: History, from: nat)
    requires GoodInitial(initial, worldId) && GoodHistory(initial, worldId, h) && from <= |h| <= I64_MAX
    ensures RebuildsTo(from, CheckpointEnvelopes(RecordsAfter(initial, h[..from]), from), OpsFrom(h, from),
      |h|, RecordsAfter(initial, h))
  {
    var base := RecordsAfter(initial, h[..from]);
    var checkpoint := CheckpointEnvelopes(base, from);
    GoodHistoryPrefix(initial, worldId, h, from);
    RecordsStayGood(initial, worldId, h[..from]);
    CheckpointLists(base, worldId, from);
    CheckpointSeeds(checkpoint, base, worldId, from);
    ReplayHistory(initial, worldId, h, from, SeedRecords(from, checkpoint, map[]).value);
  }

  lemma CheckpointSelected(rows: map<nat, CheckpointRow>, saveId: nat, initial: RecordMap, worldId: nat, h: History)
    requires CheckpointsRepresent(rows, saveId, initial, h)
    requires GoodInitial(initial, worldId) && GoodHistory(initial, worldId, h) && |h| <= I64_MAX
    ensures CheckpointsLoad(rows, saveId, |h|)
    ensures RebuildsTo(Greatest(rows.Keys), rows[Greatest(rows.Keys)].records, OpsFrom(h, Greatest(rows.Keys)),
      |h|, RecordsAfter(initial, h))
  {
    assert 0 in rows.Keys;
    var from := Greatest(rows.Keys);
    assert from in rows;
    RebuildsHistory(initial, worldId, h, from);
  }

  lemma RecordsLoaded(t: Tables, m: Manifest, n: nat, records: RecordMap, ops: seq<Op>)
    requires HeadLoads(t.heads, m) && t.heads[m.saveId].revision == n
    requires CheckpointsLoad(t.checkpoints, m.saveId, n)
    requires RebuildsTo(Greatest(t.checkpoints.Keys), t.checkpoints[Greatest(t.checkpoints.Keys)].records, ops, n,
      records)
    requires OpsLoad(t.recordOps, m.saveId, n) && ops == OpsAbove(t.recordOps, Greatest(t.checkpoints.Keys))
    requires ActionsLoad(t.actions, m.saveId, n) && OpsHaveActions(ops, t.actions)
    ensures LoadedRecords(t, m) == Some(records)
  {}

  lemma HistoryReplayed(t: Tables, m: Manifest, initial: RecordMap, h: History)
    requires GoodSave(m, initial, h)
    requires HeadLoads(t.heads, m) && t.heads[m.saveId].revision == |h|
    requires CheckpointsRepresent(t.checkpoints, m.saveId, initial, h) && OpsRepresent(t.recordOps, m.saveId, h)
    requires ActionsRepresent(t.actions, m.saveId, h)
    ensures LoadedRecords(t, m) == Some(RecordsAfter(initial, h))
  {
    var from := Greatest(t.checkpoints.Keys);
    CheckpointSelected(t.checkpoints, m.saveId, initial, m.worldId, h);
    OpsSelected(t.recordOps, m.saveId, initial, m.worldId, h, from);
    ActionsSelected(t.actions, m.saveId, initial, m.worldId, h, from);
    RecordsLoaded(t, m, |h|, RecordsAfter(initial, h), OpsFrom(h, from));
  }

  lemma HistoryProjected(t: Tables, m: Manifest, initial: RecordMap, h: History)
    requires GoodSave(m, initial, h)
    requires EventsRepresent(t.events, m.saveId, h) && TranscriptsRepresent(t.transcripts, m.saveId, initial, h)
    requires ActionsRepresent(t.actions, m.saveId, h)
    ensures Projected(t, m, |h|, RecordsAfter(initial, h)) == Some(SavedState(m, initial, h))
  {
    ActionsSelected(t.actions, m.saveId, initial, m.worldId, h, 0);
    EventsSelected(t.events, m.saveId, initial, m.worldId, h);
    TranscriptsSelected(t.transcripts, m.saveId, initial, m.worldId, h);
    RecordsStayGood(initial, m.worldId, h);
    WorldIdentityHolds(RecordsAfter(initial, h), m.worldId);
  }

  /**
   * Checkpoint-transparent replay: loading a save that represents a history
   * returns the history's fold, whichever checkpoints were written.
   */
  lemma LoadIsFold(t: Tables, m: Manifest, initial: RecordMap, h: History)
    requires Represents(t, m, initial, h)
    ensures LoadResult(t, m) == Some(SavedState(m, initial, h))
  {
    HeadIsOk(t.heads, m, |h|);
    HistoryReplayed(t, m, initial, h);
    HistoryProjected(t, m, initial, h);
  }

  /** The log above a checkpoint after one more request, whether or not any replay accepts it. */
  lemma OpsAppended(
    rows: map<(nat, nat), OpRow>, saveId: nat, initial: RecordMap, worldId: nat, h: History, r: CommitRequest, c: nat)
    requires GoodHistory(initial, worldId, h) && OpsRepresent(rows, saveId, h + [r])
    requires Block(r.recordOps, |h| + 1, r.command.actionId) && c <= |h|
    ensures OpsAbove(rows, c) == OpsFrom(h, c) + r.recordOps
  {
    hide OpsFrom, Arranged, GoodHistory, WellFormed;
    var s := set k | k in rows && k.0 > c :: rows[k].payload;
    var ops := OpsFrom(h, c) + r.recordOps;
    OpsFromFacts(initial, worldId, h, c);
    forall k: (nat, nat) | k in rows
      ensures rows[k].payload.revision == k.0 && rows[k].payload.order == k.1
      ensures k.0 <= |h| ==> HasOp(h, rows[k].payload)
      ensures k.0 > |h| ==> rows[k].payload in r.recordOps
    {
      if k.0 <= |h| {
        GoodHistoryAt(initial, worldId, h, k.0 - 1);
        ValidRequestIsBlock(h[k.0 - 1]);
      }
    }
    forall op
      ensures op in s <==> op in ops
    {
      if HasOp(h, op) || op in r.recordOps {
        var k := (op.revision, op.order);
        assert k in rows && rows[k].payload == op;
      }
    }
    forall i, j | 0 <= i < j < |ops|
      ensures Before(OpRank(ops[i]), OpRank(ops[j]))
    {
      if i < |OpsFrom(h, c)| <= j {
        assert HasOp(h, ops[i]);
      }
    }
    forall x, y | x in s && y in s && OpRank(x) == OpRank(y)
      ensures x == y
    {}
    ArrangedUnique(s, OpRank, ops);
  }

  /** A log that deletes a record the history does not hold is not replayed from any checkpoint of it. */
  lemma MissingDeleteStopsLoad(t: Tables, m: Manifest, initial: RecordMap, h: History, r: CommitRequest, i: nat)
    requires GoodSave(m, initial, h) && ValidRequest(r) && r.command.expectedRevision == |h|
    requires CheckpointsRepresent(t.checkpoints, m.saveId, initial, h) && OpsRepresent(t.recordOps, m.saveId, h + [r])
    requires DistinctKeys(r.recordOps) && i < |r.recordOps| && r.recordOps[i].mutation.Delete?
    requires r.recordOps[i].mutation.key !in RecordsAfter(initial, h)
    ensures LoadResult(t, m).None?
  {
    var from := Greatest(t.checkpoints.Keys);
    CheckpointStarts(t.checkpoints, m.saveId, initial, m.worldId, h);
    hide GoodHistory, WellFormed, RecordsAfter, OpsRepresent, CheckpointsRepresent, Validate, SeedRecords;
    var start := ReplayState(from, None, 0, SeedRecords(from, t.checkpoints[from].records, map[]).value);
    ValidRequestIsBlock(r);
    OpsAppended(t.recordOps, m.saveId, initial, m.worldId, h, r, from);
    ReplayHistory(initial, m.worldId, h, from, start.records);
    ReplaySplits(start, OpsFrom(h, from), r.recordOps);
    MissingDelete(Replay(start, OpsFrom(h, from)).value, r.recordOps, i);
  }

  /** The newest checkpoint seeds the records of the history up to it. */
  lemma CheckpointStarts(rows: map<nat, CheckpointRow>, saveId: nat, initial: RecordMap, worldId: nat, h: History)
    requires CheckpointsRepresent(rows, saveId, initial, h)
    requires GoodInitial(initial, worldId) && GoodHistory(initial, worldId, h)
    ensures 0 in rows && Greatest(rows.Keys) in rows && Greatest(rows.Keys) <= |h|
    ensures var seeded := SeedRecords(Greatest(rows.Keys), rows[Greatest(rows.Keys)].records, map[]);
      seeded.Ok? && DecodableSet(seeded.value)
        && Decoded(seeded.value) == RecordsAfter(initial, h[..Greatest(rows.Keys)])
  {
    assert 0 in rows.Keys;
    var from := Greatest(rows.Keys);
    assert from in rows;
    var base := RecordsAfter(initial, h[..from]);
    GoodHistoryPrefix(initial, worldId, h, from);
    RecordsStayGood(initial, worldId, h[..from]);
    CheckpointLists(base, worldId, from);
    CheckpointSeeds(CheckpointEnvelopes(base, from), base, worldId, from);
  }

  lemma HeadIsOk(heads: map<nat, HeadRow>, m: Manifest, n: nat)
    requires HeadsRepresent(heads, m, n) && ValidManifest(m)
    ensures HeadLoads(heads, m) && heads[m.saveId].revision == n
  {}

  lemma WorldIdentityHolds(records: RecordMap, worldId: nat)
    requires GoodRecords(records, worldId)
    ensures WorldIdentity(records, worldId)
  {
    assert records[RecordKey(WORLD_STATE_TYPE, worldId)].WorldState?;
  }

  // ------------------------------------------------------------ torn loads

  lemma LaterOpsRejected(
    rows: map<(nat, nat), OpRow>, saveId: nat, initial: RecordMap, worldId: nat, h: History, later: History)
    requires GoodHistory(initial, worldId, later) && h <= later
    requires OpsRepresent(rows, saveId, later)
    ensures OpsLoad(rows, saveId, |h|) ==> later == h
  {
    if |h| < |later| {
      GoodHistoryAt(initial, worldId, later, |h|);
      ValidRequestIsBlock(later[|h|]);
      assert (|h| + 1, 0) in rows;
      assert !OpOk((|h| + 1, 0), rows[(|h| + 1, 0)], saveId, |h|);
    }
  }

  lemma LaterActionsRejected(
    rows: map<ActionId, ActionRow>, saveId: nat, initial: RecordMap, worldId: nat, h: History, later: History)
    requires GoodHistory(initial, worldId, later) && h <= later
    requires ActionsRepresent(rows, saveId, later)
    ensures ActionsLoad(rows, saveId, |h|) ==> later == h
  {
    if |h| < |later| {
      GoodHistoryAt(initial, worldId, later, |h|);
      var key := later[|h|].command.actionId;
      assert rows[key] == ActionRowFor(saveId, later[|h|]);
      assert rows[key].outcome.revision == |h| + 1;
    }
  }

  lemma LaterEventsRejected(
    rows: map<(nat, nat), EventRow>, saveId: nat, h: History, later: History)
    requires h <= later
    requires EventsRepresent(rows, saveId, later) && EventsLoad(rows, saveId, |h|)
    ensures EventsRepresent(rows, saveId, h)
  {
    forall k | k in rows
      ensures HasEvent(h, rows[k].payload)
    {
      assert EventOk(k, rows[k], saveId, |h|);
      assert HasEvent(later, rows[k].payload);
    }
    forall e | HasEvent(h, e)
      ensures HasEvent(later, e)
    {}
  }

  lemma LaterTranscriptsRejected(
    rows: map<(nat, nat), TranscriptRow>, saveId: nat, initial: RecordMap, h: History, later: History)
    requires h <= later
    requires TranscriptsRepresent(rows, saveId, initial, later) && TranscriptsLoad(rows, saveId, |h|)
    ensures TranscriptsRepresent(rows, saveId, initial, h)
  {
    forall k | k in rows
      ensures WroteTranscript(initial, h, k.0, rows[k].payload)
    {
      assert TranscriptOk(k, rows[k], saveId, |h|);
      assert WroteTranscript(initial, later, k.0, rows[k].payload);
    }
    forall n: nat, x | WroteTranscript(initial, h, n, x)
      ensures WroteTranscript(initial, later, n, x)
    {}
  }

  /**
   * A load reads its tables one after another without a transaction, so other
   * handles may commit between the reads. Such a load still never mixes
   * states: it fails, or it returns the state at the moment the head was read.
   */
  lemma TornLoadNeverMixes(
    t: Tables, m: Manifest, initial: RecordMap, atHead: History,
    atCheckpoints: History, atOps: History, atActions: History, atEvents: History, atTranscripts: History)
    requires GoodSave(m, initial, atHead)
    requires atHead <= atCheckpoints <= atOps <= atActions <= atEvents <= atTranscripts
    requires GoodHistory(initial, m.worldId, atOps) && GoodHistory(initial, m.worldId, atActions)
    requires HeadsRepresent(t.heads, m, |atHead|)
    requires CheckpointsRepresent(t.checkpoints, m.saveId, initial, atCheckpoints)
    requires OpsRepresent(t.recordOps, m.saveId, atOps)
    requires ActionsRepresent(t.actions, m.saveId, atActions)
    requires EventsRepresent(t.events, m.saveId, atEvents)
    requires TranscriptsRepresent(t.transcripts, m.saveId, initial, atTranscripts)
    ensures LoadResult(t, m).Some? ==> LoadResult(t, m).value == SavedState(m, initial, atHead)
  {
    if LoadResult(t, m).Some? {
      LoadPassesScans(t, m, |atHead|);
      TornRowsAgree(t, m, initial, atHead, atCheckpoints, atOps, atActions, atEvents, atTranscripts);
      LoadIsFold(t, m, initial, atHead);
    }
  }

  /** Nothing committed after the first requests had an event, or a transcript. */
  ghost predicate NoEventsAfter(h: History, n: nat) {
    forall i :: n <= i < |h| ==> h[i].events == []
  }

  ghost predicate NoTranscriptsAfter(h: History, n: nat) {
    forall i :: n <= i < |h| ==> h[i].transcripts == []
  }

  lemma LaterEventsSeen(
    rows: map<(nat, nat), EventRow>, saveId: nat, initial: RecordMap, worldId: nat, h: History, later: History)
    requires GoodHistory(initial, worldId, later) && h <= later
    requires EventsRepresent(rows, saveId, later)
    ensures EventsLoad(rows, saveId, |h|) ==> NoEventsAfter(later, |h|)
    ensures NoEventsAfter(later, |h|) ==> EventsRepresent(rows, saveId, h)
  {
    forall i | |h| <= i < |later| && later[i].events != []
      ensures !EventsLoad(rows, saveId, |h|)
    {
      GoodHistoryAt(initial, worldId, later, i);
      var e := later[i].events[0];
      assert HasEvent(later, e);
      assert !EventOk((e.revision, e.id), rows[(e.revision, e.id)], saveId, |h|);
    }
    if NoEventsAfter(later, |h|) {
      forall e
        ensures HasEvent(later, e) <==> HasEvent(h, e)
      {}
    }
  }

  lemma LaterTranscriptsSeen(
    rows: map<(nat, nat), TranscriptRow>, saveId: nat, initial: RecordMap, h: History, later: History)
    requires h <= later && TranscriptsRepresent(rows, saveId, initial, later)
    ensures TranscriptsLoad(rows, saveId, |h|) ==> NoTranscriptsAfter(later, |h|)
    ensures NoTranscriptsAfter(later, |h|) ==> TranscriptsRepresent(rows, saveId, initial, h)
  {
    forall i | |h| <= i < |later| && later[i].transcripts != []
      ensures !TranscriptsLoad(rows, saveId, |h|)
    {
      var x := later[i].transcripts[0];
      assert WroteTranscript(initial, later, i + 1, x);
      assert !TranscriptOk((i + 1, x.id), rows[(i + 1, x.id)], saveId, |h|);
    }
    if NoTranscriptsAfter(later, |h|) {
      forall n: nat, x
        ensures WroteTranscript(initial, later, n, x) <==> WroteTranscript(initial, h, n, x)
      {}
    }
  }

  /**
   * A torn load succeeds exactly when no commit reached the tables of
   * operations and actions before they were read, and none with an event, or
   * a transcript, before those tables were.
   */
  lemma TornLoadSucceeds(
    t: Tables, m: Manifest, initial: RecordMap, atHead: History,
    atCheckpoints: History, atOps: History, atActions: History, atEvents: History, atTranscripts: History)
    requires GoodSave(m, initial, atHead) && GoodHistory(initial, m.worldId, atTranscripts)
    requires atHead <= atCheckpoints <= atOps <= atActions <= atEvents <= atTranscripts
    requires HeadsRepresent(t.heads, m, |atHead|)
    requires CheckpointsRepresent(t.checkpoints, m.saveId, initial, atCheckpoints)
    requires OpsRepresent(t.recordOps, m.saveId, atOps)
    requires ActionsRepresent(t.actions, m.saveId, atActions)
    requires EventsRepresent(t.events, m.saveId, atEvents)
    requires TranscriptsRepresent(t.transcripts, m.saveId, initial, atTranscripts)
    ensures LoadResult(t, m).Some? <==>
      atActions == atHead && NoEventsAfter(atEvents, |atHead|) && NoTranscriptsAfter(atTranscripts, |atHead|)
  {
    hide GoodHistory, OpsRepresent, ActionsRepresent, EventsRepresent, TranscriptsRepresent, CheckpointsRepresent,
      LoadResult;
    PrefixIsGood(initial, m.worldId, atEvents, atTranscripts);
    PrefixIsGood(initial, m.worldId, atActions, atTranscripts);
    LaterEventsSeen(t.events, m.saveId, initial, m.worldId, atHead, atEvents);
    LaterTranscriptsSeen(t.transcripts, m.saveId, initial, atHead, atTranscripts);
    LaterActionsRejected(t.actions, m.saveId, initial, m.worldId, atHead, atActions);
    if LoadResult(t, m).Some? {
      LoadPassesScans(t, m, |atHead|);
    }
    if atActions == atHead && NoEventsAfter(atEvents, |atHead|) && NoTranscriptsAfter(atTranscripts, |atHead|) {
      assert atOps == atHead && atCheckpoints == atHead;
      RowsTogether(t, m, initial, atHead);
      LoadIsFold(t, m, initial, atHead);
    }
  }

  lemma PrefixIsGood(initial: RecordMap, worldId: nat, h: History, later: History)
    requires GoodHistory(initial, worldId, later) && h <= later
    ensures GoodHistory(initial, worldId, h)
  {
    GoodHistoryPrefix(initial, worldId, later, |h|);
    assert later[..|h|] == h;
  }

  lemma TornRowsAgree(
    t: Tables, m: Manifest, initial: RecordMap, atHead: History,
    atCheckpoints: History, atOps: History, atActions: History, atEvents: History, atTranscripts: History)
    requires atHead <= atCheckpoints <= atOps <= atActions <= atEvents <= atTranscripts
    requires GoodHistory(initial, m.worldId, atOps) && GoodHistory(initial, m.worldId, atActions)
    requires HeadsRepresent(t.heads, m, |atHead|)
    requires CheckpointsRepresent(t.checkpoints, m.saveId, initial, atCheckpoints)
    requires OpsRepresent(t.recordOps, m.saveId, atOps) && OpsLoad(t.recordOps, m.saveId, |atHead|)
    requires ActionsRepresent(t.actions, m.saveId, atActions) && ActionsLoad(t.actions, m.saveId, |atHead|)
    requires EventsRepresent(t.events, m.saveId, atEvents) && EventsLoad(t.events, m.saveId, |atHead|)
    requires TranscriptsRepresent(t.transcripts, m.saveId, initial, atTranscripts)
    requires TranscriptsLoad(t.transcripts, m.saveId, |atHead|)
    ensures RowsRepresent(t, m, initial, atHead)
  {
    LaterOpsRejected(t.recordOps, m.saveId, initial, m.worldId, atHead, atOps);
    LaterActionsRejected(t.actions, m.saveId, initial, m.worldId, atHead, atActions);
    LaterEventsRejected(t.events, m.saveId, atHead, atEvents);
    LaterTranscriptsRejected(t.transcripts, m.saveId, initial, atHead, atTranscripts);
    assert atCheckpoints == atHead;
    hide CheckpointsRepresent, OpsRepresent, ActionsRepresent, EventsRepresent, TranscriptsRepresent, HeadsRepresent,
      OpsLoad, ActionsLoad, EventsLoad, TranscriptsLoad, GoodHistory;
    RowsTogether(t, m, initial, atHead);
  }

  lemma LoadPassesScans(t: Tables, m: Manifest, n: nat)
    requires HeadsRepresent(t.heads, m, n)
    requires LoadResult(t, m).Some?
    ensures OpsLoad(t.recordOps, m.saveId, n) && ActionsLoad(t.actions, m.saveId, n)
    ensures EventsLoad(t.events, m.saveId, n) && TranscriptsLoad(t.transcripts, m.saveId, n)
  {}
}
