/**
 * The history a save stands for: the initial records and the committed
 * requests in order. The tables of every reachable save represent one.
 */
module SaveHistory {
  import opened Outcomes
  import opened Ordering
  import opened Records
  import opened ChangeSets
  import opened Requests
  import opened SaveTables

  type RecordMap = map<RecordKey, DomainRecord>
  type History = seq<CommitRequest>

  // ------------------------------------------------ the meaning of a history

  function MutateDomain(records: RecordMap, mutation: Mutation): RecordMap {
    match mutation
    case Upsert(record) => records[record.key := record.payload]
    case Delete(key) => records - {key}
  }

  function AfterDomain(records: RecordMap, ops: seq<Op>): RecordMap
    decreases |ops|
  {
    if ops == [] then records else AfterDomain(MutateDomain(records, ops[0].mutation), ops[1..])
  }

  ghost predicate DecodableOps(ops: seq<Op>) {
    forall i :: 0 <= i < |ops| && ops[i].mutation.Upsert? ==> Decodable(ops[i].mutation.record)
  }

  /** Replaying envelopes and then decoding is the same as replaying records. */
  lemma {:induction false} DecodingCommutes(records: RecordSet, ops: seq<Op>)
    requires DecodableSet(records) && DecodableOps(ops)
    ensures DecodableSet(AfterOps(records, ops))
    ensures Decoded(AfterOps(records, ops)) == AfterDomain(Decoded(records), ops)
    decreases |ops|
  {
    if ops != [] {
      var next := Mutate(records, ops[0].mutation);
      assert Decoded(next) == MutateDomain(Decoded(records), ops[0].mutation);
      assert forall i :: 0 <= i < |ops[1..]| ==> ops[1..][i] == ops[i + 1];
      DecodingCommutes(next, ops[1..]);
    }
  }

  /** The records after the first requests of a history. */
  function RecordsAfter(initial: RecordMap, h: History): RecordMap {
    if h == [] then initial
    else AfterDomain(RecordsAfter(initial, h[..|h| - 1]), h[|h| - 1].recordOps)
  }

  ghost function UsedEvents(h: History): set<EventId> {
    set i, j | 0 <= i < |h| && 0 <= j < |h[i].events| :: h[i].events[j].id
  }

  ghost function UsedActions(h: History): set<ActionId> {
    set i | 0 <= i < |h| :: h[i].command.actionId
  }

  ghost predicate UpsertsTranscript(ops: seq<Op>, t: Transcript) {
    exists i :: 0 <= i < |ops| && ops[i].mutation.Upsert? && ops[i].mutation.record.payload == TranscriptItem(t)
  }

  /** A request the world may commit on top of `prior` at revision `n`. */
  ghost predicate WellFormed(prior: RecordMap, worldId: nat, used: set<EventId>, n: nat, r: CommitRequest) {
    var ops := r.recordOps;
    && ValidRequest(r) && r.command.expectedRevision == n && n + 1 <= I64_MAX
    && |ops| <= U32_MAX && DistinctKeys(ops) && DecodableOps(ops)
    && (forall i :: 0 <= i < |ops| && ops[i].mutation.Delete? ==>
          ops[i].mutation.key in prior && prior[ops[i].mutation.key].Other?)
    && (forall i :: 0 <= i < |ops| && ops[i].mutation.Upsert? && ops[i].mutation.record.payload.WorldState? ==>
          ops[i].mutation.record.payload.worldId == worldId)
    && DistinctTranscripts(r.transcripts)
    && (forall t :: t in r.transcripts <==> UpsertsTranscript(ops, t))
    && (forall j :: 0 <= j < |r.events| ==> r.events[j].id !in used)
  }

  ghost predicate GoodHistory(initial: RecordMap, worldId: nat, h: History) {
    h != [] ==>
      var prefix, last := h[..|h| - 1], h[|h| - 1];
      && GoodHistory(initial, worldId, prefix)
      && WellFormed(RecordsAfter(initial, prefix), worldId, UsedEvents(prefix), |prefix|, last)
      && last.command.actionId !in UsedActions(prefix)
  }

  /** Records keyed by their own key, all valid, with exactly one world state. */
  ghost predicate GoodRecords(records: RecordMap, worldId: nat) {
    && (forall k :: k in records ==> KeyOf(records[k]) == k && ValidRecord(records[k]))
    && RecordKey(WORLD_STATE_TYPE, worldId) in records
    && (forall k :: k in records && k.recordType == WORLD_STATE_TYPE ==> k.recordId == worldId)
  }

  ghost predicate GoodInitial(initial: RecordMap, worldId: nat) {
    && GoodRecords(initial, worldId)
    && (forall k :: k in initial && initial[k].TranscriptItem? ==>
          initial[k].transcript.revision.Some? ==> initial[k].transcript.revision.value == 0)
  }

  lemma {:induction false} GoodHistoryPrefix(initial: RecordMap, worldId: nat, h: History, n: nat)
    requires GoodHistory(initial, worldId, h) && n <= |h|
    ensures GoodHistory(initial, worldId, h[..n])
    decreases |h|
  {
    if n == |h| {
      assert h[..n] == h;
    } else {
      GoodHistoryPrefix(initial, worldId, h[..|h| - 1], n);
      assert h[..|h| - 1][..n] == h[..n];
    }
  }

  /** Each request of a good history is well formed where it was committed. */
  lemma GoodHistoryAt(initial: RecordMap, worldId: nat, h: History, i: nat)
    requires GoodHistory(initial, worldId, h) && i < |h|
    ensures WellFormed(RecordsAfter(initial, h[..i]), worldId, UsedEvents(h[..i]), i, h[i])
    ensures h[i].command.actionId !in UsedActions(h[..i])
  {
    GoodHistoryPrefix(initial, worldId, h, i + 1);
    assert h[..i + 1][..i] == h[..i];
  }

  lemma {:induction false} AfterDomainPointwise(records: RecordMap, ops: seq<Op>, k: RecordKey)
    requires DistinctKeys(ops)
    ensures (forall i :: 0 <= i < |ops| ==> MutationKey(ops[i].mutation) != k)
      ==> (k in AfterDomain(records, ops) <==> k in records)
          && (k in records ==> AfterDomain(records, ops)[k] == records[k])
    ensures forall i :: 0 <= i < |ops| && MutationKey(ops[i].mutation) == k ==>
      match ops[i].mutation
      case Upsert(record) => k in AfterDomain(records, ops) && AfterDomain(records, ops)[k] == record.payload
      case Delete(_) => k !in AfterDomain(records, ops)
  {
    var envelopes: RecordSet := map q | q in records :: Envelope(q, SCHEMA_V1, 0, records[q], None);
    assert Decoded(envelopes) == records;
    PayloadsCommute(envelopes, ops);
    AfterOpsPointwise(envelopes, ops, k);
  }

  lemma {:induction false} PayloadsCommute(records: RecordSet, ops: seq<Op>)
    ensures Decoded(AfterOps(records, ops)) == AfterDomain(Decoded(records), ops)
    decreases |ops|
  {
    if ops != [] {
      var next := Mutate(records, ops[0].mutation);
      assert Decoded(next) == MutateDomain(Decoded(records), ops[0].mutation);
      PayloadsCommute(next, ops[1..]);
    }
  }

  /** A well-formed commit keeps the records good. */
  lemma WellFormedKeepsGood(prior: RecordMap, worldId: nat, used: set<EventId>, n: nat, r: CommitRequest)
    requires GoodRecords(prior, worldId) && WellFormed(prior, worldId, used, n, r)
    ensures GoodRecords(AfterDomain(prior, r.recordOps), worldId)
  {
    var ops := r.recordOps;
    var after := AfterDomain(prior, ops);
    forall k
      ensures k in after ==> KeyOf(after[k]) == k && ValidRecord(after[k])
      ensures k in after && k.recordType == WORLD_STATE_TYPE ==> k.recordId == worldId
      ensures k == RecordKey(WORLD_STATE_TYPE, worldId) ==> k in after
    {
      AfterDomainPointwise(prior, ops, k);
      if i :| 0 <= i < |ops| && MutationKey(ops[i].mutation) == k {
        assert ops[i].mutation.Upsert? ==> Decodable(ops[i].mutation.record);
        if ops[i].mutation.Delete? {
          assert prior[k].Other?;
        }
      }
    }
  }

  lemma {:induction false} RecordsStayGood(initial: RecordMap, worldId: nat, h: History)
    requires GoodInitial(initial, worldId) && GoodHistory(initial, worldId, h)
    ensures GoodRecords(RecordsAfter(initial, h), worldId)
    decreases |h|
  {
    if h != [] {
      var prefix := h[..|h| - 1];
      RecordsStayGood(initial, worldId, prefix);
      WellFormedKeepsGood(RecordsAfter(initial, prefix), worldId, UsedEvents(prefix), |prefix|, h[|h| - 1]);
    }
  }

  // ------------------------------------------- requests built by executions

  /** Committing an execution's request applies its change set to the records. */
  lemma RequestAppliesChanges(prior: RecordMap, worldId: nat, used: set<EventId>, command: Command, c: ChangeSet)
    requires GoodRecords(prior, worldId)
    requires ExecutionContract(prior, worldId, used, command, c)
    ensures WellFormed(prior, worldId, used, command.expectedRevision, Assemble(command, c))
    ensures AfterDomain(prior, OpsOf(c)) == Applied(prior, c)
  {
    hide OpsOf, AfterDomain, Applied, Expressible, Validate, TranscriptsOf;
    var r := Assemble(command, c);
    var ops := OpsOf(c);
    ContractIsAccepted(prior, worldId, used, command, c);
    OpsFacts(c);
    UpsertKeysDistinct(c);
    TranscriptsOfDistinct(c.upserts);
    forall i | 0 <= i < |ops|
      ensures ops[i].mutation.Upsert? ==>
        Decodable(ops[i].mutation.record) && ops[i].mutation.record.payload in c.upserts
      ensures ops[i].mutation.Delete? ==> ops[i].mutation.key in c.deletes
    {
      MutationOrigin(c, ops[i].mutation);
    }
    forall t
      ensures t in r.transcripts <==> UpsertsTranscript(ops, t)
    {
      TranscriptsOfMembers(c.upserts, t);
      if TranscriptItem(t) in c.upserts {
        var u :| 0 <= u < |c.upserts| && c.upserts[u] == TranscriptItem(t);
        UpsertListed(c, u);
        var m := Upsert(ToEnvelope(c.upserts[u], c.revision, Some(c.actionId)));
        var i :| 0 <= i < |ops| && ops[i].mutation == m;
        assert ops[i].mutation.record.payload == TranscriptItem(t);
      }
    }
    forall j | 0 <= j < |r.events|
      ensures r.events[j].id !in used
    {
      assert c.events[j].id !in used;
    }
    OpsApplyChanges(prior, c);
  }

  /** Replaying a change set's ops on records gives its meaning. */
  lemma OpsApplyChanges(prior: RecordMap, c: ChangeSet)
    requires Expressible(c)
    requires forall k :: k in prior ==> KeyOf(prior[k]) == k && ValidRecord(prior[k])
    ensures AfterDomain(prior, OpsOf(c)) == Applied(prior, c)
  {
    hide OpsOf, AfterOps, Applied, Expressible;
    var ops := OpsOf(c);
    var envelopes: RecordSet := map k | k in prior :: ToEnvelope(prior[k], 0, None);
    assert Decoded(envelopes) == prior;
    PayloadsCommute(envelopes, ops);
    forall k
      ensures k in AfterOps(envelopes, ops) <==> k in Applied(prior, c)
      ensures k in AfterOps(envelopes, ops) ==> AfterOps(envelopes, ops)[k].payload == Applied(prior, c)[k]
    {
      AppliedAt(c, envelopes, k);
    }
    assert AfterDomain(prior, ops) == Decoded(AfterOps(envelopes, ops));
  }

  // ------------------------------------------------------- representation

  /** Any listing of a finite set. */
  ghost function Listing<T(!new)>(s: set<T>): (r: seq<T>)
    ensures forall x :: x in r <==> x in s
    ensures forall i, j :: 0 <= i < j < |r| ==> r[i] != r[j]
  {
    if s == {} then []
    else
      var x :| x in s;
      var rest := Listing(s - {x});
      assert forall i :: 0 <= i < |rest| ==> rest[i] in s - {x};
      [x] + rest
  }

  /** The elements of a set in rank order. */
  ghost function Arranged<T(!new)>(s: set<T>, rank: T -> Rank): seq<T> {
    Sort(Listing(s), rank)
  }

  ghost predicate InjectiveOn<T(!new)>(s: set<T>, rank: T -> Rank) {
    forall x, y :: x in s && y in s && rank(x) == rank(y) ==> x == y
  }

  lemma ArrangedFacts<T(!new)>(s: set<T>, rank: T -> Rank)
    requires InjectiveOn(s, rank)
    ensures StrictlySortedBy(Arranged(s, rank), rank)
    ensures forall x :: x in Arranged(s, rank) <==> x in s
  {
    var l := Listing(s);
    forall i, j | 0 <= i < j < |l|
      ensures rank(l[i]) != rank(l[j])
    {
      assert l[i] in s && l[j] in s;
    }
    SortStrict(l, rank);
    SortMembers(l, rank);
  }

  lemma ArrangedUnique<T(!new)>(s: set<T>, rank: T -> Rank, r: seq<T>)
    requires InjectiveOn(s, rank)
    requires StrictlySortedBy(r, rank) && forall x :: x in r <==> x in s
    ensures r == Arranged(s, rank)
  {
    ArrangedFacts(s, rank);
    StrictUnique(r, Arranged(s, rank), rank);
  }

  function EnvelopeRank(e: Envelope): Rank { KeyRank(e.key) }
  function RecordRank(r: DomainRecord): Rank { KeyRank(KeyOf(r)) }
  function EventRank(e: Event): Rank { (e.revision, e.id) }
  function OpRank(op: Op): Rank { (op.revision, op.order) }
  function TranscriptRank(t: Transcript): Rank { (t.id, 0) }

  /** The envelopes a checkpoint at `revision` stores: rewritten revision, no provenance. */
  ghost function CheckpointEnvelopes(records: RecordMap, revision: nat): seq<Envelope> {
    Arranged(set k | k in records :: ToEnvelope(records[k], revision, None), EnvelopeRank)
  }

  ghost predicate HeadsRepresent(heads: map<nat, HeadRow>, m: Manifest, revision: nat) {
    heads == map[m.saveId := HeadRowFor(revision, m)]
  }

  ghost predicate CheckpointsRepresent(rows: map<nat, CheckpointRow>, saveId: nat, initial: RecordMap, h: History) {
    && 0 in rows
    && forall c :: c in rows ==>
         c <= |h|
         && rows[c] == CheckpointRowFor(saveId, c, CheckpointEnvelopes(RecordsAfter(initial, h[..c]), c))
  }

  ghost predicate OpsRepresent(rows: map<(nat, nat), OpRow>, saveId: nat, h: History) {
    && (forall k :: k in rows <==> 1 <= k.0 <= |h| && k.1 < |h[k.0 - 1].recordOps|)
    && (forall k :: k in rows ==> rows[k] == OpRowFor(saveId, h[k.0 - 1].recordOps[k.1]))
  }

  ghost predicate HasEvent(h: History, e: Event) {
    1 <= e.revision <= |h| && e in h[e.revision - 1].events
  }

  ghost predicate EventsRepresent(rows: map<(nat, nat), EventRow>, saveId: nat, h: History) {
    && (forall k :: k in rows ==>
          && HasEvent(h, rows[k].payload)
          && k == (rows[k].payload.revision, rows[k].payload.id)
          && rows[k] == EventRowFor(saveId, rows[k].payload))
    && (forall e :: HasEvent(h, e) ==> (e.revision, e.id) in rows && rows[(e.revision, e.id)].payload == e)
  }

  /** The transcripts written at a revision: the initial ones, then each commit's. */
  ghost predicate WroteTranscript(initial: RecordMap, h: History, revision: nat, x: Transcript) {
    if revision == 0 then KeyOf(TranscriptItem(x)) in initial && initial[KeyOf(TranscriptItem(x))] == TranscriptItem(x)
    else revision <= |h| && x in h[revision - 1].transcripts
  }

  ghost predicate TranscriptsRepresent(
    rows: map<(nat, nat), TranscriptRow>, saveId: nat, initial: RecordMap, h: History)
  {
    && (forall k :: k in rows ==>
          && WroteTranscript(initial, h, k.0, rows[k].payload)
          && k.1 == rows[k].payload.id
          && rows[k] == TranscriptRowFor(saveId, k.0, rows[k].payload))
    && (forall n: nat, x :: WroteTranscript(initial, h, n, x) ==> (n, x.id) in rows && rows[(n, x.id)].payload == x)
  }

  ghost predicate ActionsRepresent(rows: map<ActionId, ActionRow>, saveId: nat, h: History) {
    && rows.Keys == UsedActions(h)
    && (forall i :: 0 <= i < |h| ==>
          h[i].command.actionId in rows && rows[h[i].command.actionId] == ActionRowFor(saveId, h[i]))
  }

  ghost predicate GoodSave(m: Manifest, initial: RecordMap, h: History) {
    && ValidManifest(m)
    && GoodInitial(initial, m.worldId) && GoodHistory(initial, m.worldId, h)
    && |h| <= I64_MAX
  }

  /** The tables hold exactly this history under this durable manifest. */
  ghost predicate Represents(t: Tables, m: Manifest, initial: RecordMap, h: History) {
    GoodSave(m, initial, h) && RowsRepresent(t, m, initial, h)
  }

  ghost predicate RowsRepresent(t: Tables, m: Manifest, initial: RecordMap, h: History) {
    && HeadsRepresent(t.heads, m, |h|)
    && CheckpointsRepresent(t.checkpoints, m.saveId, initial, h)
    && OpsRepresent(t.recordOps, m.saveId, h)
    && EventsRepresent(t.events, m.saveId, h)
    && TranscriptsRepresent(t.transcripts, m.saveId, initial, h)
    && ActionsRepresent(t.actions, m.saveId, h)
  }

  // --------------------------------------------------- commits extend history

  lemma {:induction false} OpRowsExact(saveId: nat, ops: seq<Op>, revision: nat, k: (nat, nat))
    requires forall i :: 0 <= i < |ops| ==> ops[i].revision == revision && ops[i].order == i
    ensures k in OpRows(saveId, ops) <==> k.0 == revision && k.1 < |ops|
    ensures k in OpRows(saveId, ops) ==> OpRows(saveId, ops)[k] == OpRowFor(saveId, ops[k.1])
  {
    if ops != [] {
      OpRowsExact(saveId, ops[..|ops| - 1], revision, k);
    }
  }

  lemma OpsExtend(rows: map<(nat, nat), OpRow>, saveId: nat, h: History, r: CommitRequest)
    requires OpsRepresent(rows, saveId, h)
    requires Block(r.recordOps, |h| + 1, r.command.actionId)
    ensures OpsRepresent(rows + OpRows(saveId, r.recordOps), saveId, h + [r])
  {
    var h' := h + [r];
    var all := rows + OpRows(saveId, r.recordOps);
    forall k: (nat, nat)
      ensures k in all <==> 1 <= k.0 <= |h'| && k.1 < |h'[k.0 - 1].recordOps|
      ensures k in all ==> all[k] == OpRowFor(saveId, h'[k.0 - 1].recordOps[k.1])
    {
      OpRowsExact(saveId, r.recordOps, |h| + 1, k);
      assert k in all <==> k in rows || k in OpRows(saveId, r.recordOps);
      if 1 <= k.0 <= |h| {
        assert h'[k.0 - 1] == h[k.0 - 1];
      }
    }
  }

  lemma {:induction false} EventRowsExact(saveId: nat, revision: nat, events: seq<Event>, k: (nat, nat))
    requires Distinct(EventIds(events))
    requires forall i :: 0 <= i < |events| ==> events[i].revision == revision
    ensures k in EventRows(saveId, events) ==>
      var row := EventRows(saveId, events)[k];
      row.payload in events && k == (revision, row.payload.id) && row == EventRowFor(saveId, row.payload)
    ensures forall e :: e in events ==>
      (revision, e.id) in EventRows(saveId, events) && EventRows(saveId, events)[(revision, e.id)].payload == e
  {
    if events != [] {
      var rest, last := events[..|events| - 1], events[|events| - 1];
      forall i, j | 0 <= i < j < |rest|
        ensures EventIds(rest)[i] != EventIds(rest)[j]
      {
        assert EventIds(events)[i] != EventIds(events)[j];
      }
      EventRowsExact(saveId, revision, rest, k);
      forall e | e in rest
        ensures e.id != last.id
      {
        var i :| 0 <= i < |rest| && rest[i] == e;
        assert EventIds(events)[i] != EventIds(events)[|events| - 1];
      }
      assert events == rest + [last];
    }
  }

  lemma EventsExtend(rows: map<(nat, nat), EventRow>, saveId: nat, h: History, r: CommitRequest)
    requires EventsRepresent(rows, saveId, h)
    requires Distinct(EventIds(r.events)) && EventsMatch(r.events, r.command, |h| + 1)
    ensures EventsRepresent(rows + EventRows(saveId, r.events), saveId, h + [r])
  {
    var h' := h + [r];
    var added := EventRows(saveId, r.events);
    forall k
      ensures k in rows + added ==>
        var row := (rows + added)[k];
        HasEvent(h', row.payload) && k == (row.payload.revision, row.payload.id)
          && row == EventRowFor(saveId, row.payload)
    {
      EventRowsExact(saveId, |h| + 1, r.events, k);
      assert k in rows ==> HasEvent(h, rows[k].payload);
    }
    forall e | HasEvent(h', e)
      ensures (e.revision, e.id) in rows + added && (rows + added)[(e.revision, e.id)].payload == e
    {
      EventRowsExact(saveId, |h| + 1, r.events, (e.revision, e.id));
      if e.revision <= |h| {
        assert HasEvent(h, e);
      }
    }
  }

  lemma {:induction false} TranscriptRowsExact(saveId: nat, revision: nat, transcripts: seq<Transcript>, k: (nat, nat))
    requires DistinctTranscripts(transcripts)
    ensures k in TranscriptRows(saveId, revision, transcripts) ==>
      var row := TranscriptRows(saveId, revision, transcripts)[k];
      row.payload in transcripts && k == (revision, row.payload.id)
        && row == TranscriptRowFor(saveId, revision, row.payload)
    ensures forall x :: x in transcripts ==>
      (revision, x.id) in TranscriptRows(saveId, revision, transcripts)
      && TranscriptRows(saveId, revision, transcripts)[(revision, x.id)].payload == x
  {
    if transcripts != [] {
      var rest := transcripts[..|transcripts| - 1];
      TranscriptRowsExact(saveId, revision, rest, k);
      assert transcripts == rest + [transcripts[|transcripts| - 1]];
    }
  }

  lemma TranscriptsExtendRow(
    rows: map<(nat, nat), TranscriptRow>, saveId: nat, initial: RecordMap, h: History, r: CommitRequest, k: (nat, nat))
    requires TranscriptsRepresent(rows, saveId, initial, h)
    requires DistinctTranscripts(r.transcripts)
    requires k in rows + TranscriptRows(saveId, |h| + 1, r.transcripts)
    ensures var row := (rows + TranscriptRows(saveId, |h| + 1, r.transcripts))[k];
      WroteTranscript(initial, h + [r], k.0, row.payload) && k.1 == row.payload.id
        && row == TranscriptRowFor(saveId, k.0, row.payload)
  {
    TranscriptRowsExact(saveId, |h| + 1, r.transcripts, k);
    assert k in rows ==> WroteTranscript(initial, h, k.0, rows[k].payload);
  }

  lemma TranscriptsExtend(
    rows: map<(nat, nat), TranscriptRow>, saveId: nat, initial: RecordMap, h: History, r: CommitRequest)
    requires TranscriptsRepresent(rows, saveId, initial, h)
    requires DistinctTranscripts(r.transcripts)
    ensures TranscriptsRepresent(rows + TranscriptRows(saveId, |h| + 1, r.transcripts), saveId, initial, h + [r])
  {
    var h' := h + [r];
    var added := TranscriptRows(saveId, |h| + 1, r.transcripts);
    var all := rows + added;
    forall k | k in all
      ensures WroteTranscript(initial, h', k.0, all[k].payload)
      ensures k.1 == all[k].payload.id && all[k] == TranscriptRowFor(saveId, k.0, all[k].payload)
    {
      TranscriptsExtendRow(rows, saveId, initial, h, r, k);
    }
    forall n: nat, x | WroteTranscript(initial, h', n, x)
      ensures (n, x.id) in all && all[(n, x.id)].payload == x
    {
      TranscriptRowsExact(saveId, |h| + 1, r.transcripts, (n, x.id));
      if n <= |h| {
        assert WroteTranscript(initial, h, n, x);
      }
    }
  }

  lemma ActionsExtend(rows: map<ActionId, ActionRow>, saveId: nat, h: History, r: CommitRequest)
    requires ActionsRepresent(rows, saveId, h)
    requires r.command.actionId !in UsedActions(h)
    ensures ActionsRepresent(rows[r.command.actionId := ActionRowFor(saveId, r)], saveId, h + [r])
  {
    var h' := h + [r];
    UsedActionsExtend(h, r);
    forall i | 0 <= i < |h'|
      ensures i < |h| ==> h'[i].command.actionId in UsedActions(h)
    {}
  }

  lemma UsedActionsExtend(h: History, r: CommitRequest)
    ensures UsedActions(h + [r]) == UsedActions(h) + {r.command.actionId}
  {
    var h' := h + [r];
    forall a
      ensures a in UsedActions(h') <==> a in UsedActions(h) || a == r.command.actionId
    {
      if a in UsedActions(h) {
        var i :| 0 <= i < |h| && h[i].command.actionId == a;
        assert h'[i].command.actionId == a;
      }
      assert h'[|h|].command.actionId == r.command.actionId;
    }
  }

  lemma CheckpointsExtend(
    rows: map<nat, CheckpointRow>, saveId: nat, initial: RecordMap, h: History, r: CommitRequest)
    requires CheckpointsRepresent(rows, saveId, initial, h)
    ensures CheckpointsRepresent(rows, saveId, initial, h + [r])
  {
    forall c | c in rows
      ensures (h + [r])[..c] == h[..c]
    {}
  }

  lemma RowsExtend(t: Tables, m: Manifest, initial: RecordMap, h: History, r: CommitRequest)
    requires RowsRepresent(t, m, initial, h)
    requires Block(r.recordOps, |h| + 1, r.command.actionId)
    requires Distinct(EventIds(r.events)) && EventsMatch(r.events, r.command, |h| + 1)
    requires DistinctTranscripts(r.transcripts) && r.outcome.revision == |h| + 1
    requires r.command.actionId !in UsedActions(h)
    ensures RowsRepresent(WithCommit(t, m, r), m, initial, h + [r])
  {
    var t' := WithCommit(t, m, r);
    HeadsExtend(t, m, |h|, r);
    OpsExtend(t.recordOps, m.saveId, h, r);
    EventsExtend(t.events, m.saveId, h, r);
    TranscriptsExtend(t.transcripts, m.saveId, initial, h, r);
    ActionsExtend(t.actions, m.saveId, h, r);
    CheckpointsExtend(t.checkpoints, m.saveId, initial, h, r);
    RowsTogether(t', m, initial, h + [r]);
  }

  lemma HeadsExtend(t: Tables, m: Manifest, n: nat, r: CommitRequest)
    requires HeadsRepresent(t.heads, m, n) && r.outcome.revision == n + 1
    ensures HeadsRepresent(WithCommit(t, m, r).heads, m, n + 1)
  {
    hide OpRows, EventRows, TranscriptRows, ActionRowFor;
  }

  lemma RowsTogether(t: Tables, m: Manifest, initial: RecordMap, h: History)
    requires HeadsRepresent(t.heads, m, |h|)
    requires CheckpointsRepresent(t.checkpoints, m.saveId, initial, h)
    requires OpsRepresent(t.recordOps, m.saveId, h)
    requires EventsRepresent(t.events, m.saveId, h)
    requires TranscriptsRepresent(t.transcripts, m.saveId, initial, h)
    requires ActionsRepresent(t.actions, m.saveId, h)
    ensures RowsRepresent(t, m, initial, h)
  {}

  /** A well-formed commit by a handle with the durable manifest extends the history by one. */
  lemma CommitExtends(t: Tables, m: Manifest, initial: RecordMap, h: History, r: CommitRequest)
    requires Represents(t, m, initial, h)
    requires WellFormed(RecordsAfter(initial, h), m.worldId, UsedEvents(h), |h|, r)
    requires r.command.actionId !in UsedActions(h)
    ensures Represents(WithCommit(t, m, r), m, initial, h + [r])
  {
    GoodSaveExtends(m, initial, h, r);
    RequestRowsExtend(t, m, initial, h, r);
  }

  lemma RequestRowsExtend(t: Tables, m: Manifest, initial: RecordMap, h: History, r: CommitRequest)
    requires RowsRepresent(t, m, initial, h)
    requires ValidRequest(r) && r.command.expectedRevision == |h| && DistinctTranscripts(r.transcripts)
    requires r.command.actionId !in UsedActions(h)
    ensures RowsRepresent(WithCommit(t, m, r), m, initial, h + [r])
  {
    ValidRequestIsBlock(r);
    RowsExtend(t, m, initial, h, r);
  }

  lemma GoodSaveExtends(m: Manifest, initial: RecordMap, h: History, r: CommitRequest)
    requires GoodSave(m, initial, h)
    requires WellFormed(RecordsAfter(initial, h), m.worldId, UsedEvents(h), |h|, r)
    requires r.command.actionId !in UsedActions(h)
    ensures GoodSave(m, initial, h + [r])
  {
    assert (h + [r])[..|h|] == h;
  }

  /** A request for the next revision never collides with a stored primary key. */
  lemma NoCollision(t: Tables, saveId: nat, initial: RecordMap, h: History, r: CommitRequest)
    requires OpsRepresent(t.recordOps, saveId, h) && EventsRepresent(t.events, saveId, h)
    requires TranscriptsRepresent(t.transcripts, saveId, initial, h)
    requires ValidRequest(r) && r.command.expectedRevision == |h| && DistinctTranscripts(r.transcripts)
    ensures !KeyCollision(t, r)
  {
    forall k | k in t.events || k in t.transcripts
      ensures k.0 <= |h|
    {
      assert k in t.events ==> HasEvent(h, t.events[k].payload);
      assert k in t.transcripts ==> WroteTranscript(initial, h, k.0, t.transcripts[k].payload);
    }
  }
}
