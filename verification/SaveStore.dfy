/**
 * The save store: handles over one shared database. Every method is proved
 * against the transaction or load it stands for.
 */
module SaveStores {
  import opened Outcomes
  import opened Ordering
  import opened Records
  import opened ChangeSets
  import opened Requests
  import opened Locks
  import opened SaveTables
  import opened SaveHistory
  import opened SaveLoading
  import opened SaveProtocol

  /** The database directory; `exists` tells whether it was ever created. */
  class SaveDatabase {
    var tables: Tables
    var created: bool

    constructor ()
      ensures tables == Tables(map[], map[], map[], map[], map[], map[]) && !created
    {
      tables := Tables(map[], map[], map[], map[], map[], map[]);
      created := false;
    }
  }

  // ----------------------------------------------------------- table scans
  // Rows come back in no particular order.

  method CheckManifest(m: Manifest) returns (ok: bool)
    ensures ok <==> ValidManifest(m)
  {
    if m.formatVersion != SAVE_FORMAT_V1 || !ValidWorldLock(m.worldLock) {
      return false;
    }
    var lock := ValidateLock(m.modLock);
    return lock.Ok?;
  }

  /** `validate_head_row`. */
  method CheckHead(row: HeadRow) returns (ok: bool)
    ensures ok <==> HeadOk(row)
  {
    if row.revision < 0 || row.checksum != HeadDigest(row.revision, row.manifest) {
      return false;
    }
    var valid := CheckManifest(row.manifest);
    return valid && row.saveId == row.manifest.saveId;
  }

  /** `load_checkpoint`: check every row, keep the newest, check its order. */
  method LoadCheckpoint(rows: map<nat, CheckpointRow>, saveId: nat, head: int)
    returns (r: Result<(nat, seq<Envelope>), StoreError>)
    ensures r.Ok? <==>
      CheckpointsLoad(rows, saveId, head) && CheckpointOrdered(rows[Greatest(rows.Keys)].records, Greatest(rows.Keys))
    ensures r.Ok? ==> r.value == (Greatest(rows.Keys), rows[Greatest(rows.Keys)].records)
  {
    var rest := rows.Keys;
    ghost var seen: set<nat> := {};
    var selected: Option<nat> := None;
    while rest != {}
      invariant seen !! rest && seen + rest == rows.Keys
      invariant forall k :: k in seen ==> CheckpointOk(k, rows[k], saveId, head)
      invariant selected.None? <==> seen == {}
      invariant selected.Some? ==> IsGreatest(selected.value, seen)
      decreases rest
    {
      var k :| k in rest;
      if !CheckpointOk(k, rows[k], saveId, head) {
        return Err(Integrity);
      }
      if selected.None? || k > selected.value {
        selected := Some(k);
      }
      rest, seen := rest - {k}, seen + {k};
    }
    if selected.None? {
      return Err(Integrity);
    }
    assert seen == rows.Keys;
    assert selected.value == Greatest(rows.Keys);
    var records := rows[selected.value].records;
    for i := 0 to |records|
      invariant forall j :: 0 <= j < i ==> records[j].revision <= selected.value
      invariant forall a, b :: 0 <= a < b < i ==> Before(EnvelopeRank(records[a]), EnvelopeRank(records[b]))
    {
      if records[i].revision > selected.value
        || (i > 0 && !Before(EnvelopeRank(records[i - 1]), EnvelopeRank(records[i]))) {
        return Err(Integrity);
      }
    }
    return Ok((selected.value, records));
  }

  /** The list holds the payloads, above `from`, of the rows seen so far. */
  ghost predicate OpsSoFar(rows: map<(nat, nat), OpRow>, seen: set<(nat, nat)>, from: nat, ops: seq<Op>)
    requires seen <= rows.Keys
  {
    && (forall k :: k in seen && k.0 > from ==> rows[k].payload in ops)
    && (forall i :: 0 <= i < |ops| ==>
          && (ops[i].revision, ops[i].order) in seen && rows[(ops[i].revision, ops[i].order)].payload == ops[i]
          && ops[i].revision > from)
    && (forall i, j :: 0 <= i < j < |ops| ==> OpRank(ops[i]) != OpRank(ops[j]))
  }

  lemma OpsSoFarStep(
    rows: map<(nat, nat), OpRow>, seen: set<(nat, nat)>, from: nat, ops: seq<Op>, k: (nat, nat), saveId: nat, head: int)
    requires seen <= rows.Keys && OpsSoFar(rows, seen, from, ops)
    requires k in rows && k !in seen && OpOk(k, rows[k], saveId, head)
    ensures OpsSoFar(rows, seen + {k}, from, if k.0 > from then ops + [rows[k].payload] else ops)
  {
    var ops' := if k.0 > from then ops + [rows[k].payload] else ops;
    assert forall op :: op in ops ==> op in ops';
    assert k.0 > from ==> ops'[|ops|] == rows[k].payload;
  }

  lemma OpsSoFarDone(rows: map<(nat, nat), OpRow>, from: nat, ops: seq<Op>)
    requires OpsSoFar(rows, rows.Keys, from, ops)
    ensures Sort(ops, OpRank) == OpsAbove(rows, from)
  {
    var s := set k | k in rows && k.0 > from :: rows[k].payload;
    SortStrict(ops, OpRank);
    SortMembers(ops, OpRank);
    forall op
      ensures op in ops <==> op in s
    {
      if op in ops {
        var i :| 0 <= i < |ops| && ops[i] == op;
        assert (op.revision, op.order) in rows;
      }
    }
    ArrangedUnique(s, OpRank, Sort(ops, OpRank));
  }

  /** `load_record_ops`. */
  method LoadRecordOps(rows: map<(nat, nat), OpRow>, saveId: nat, from: nat, head: int)
    returns (r: Result<seq<Op>, StoreError>)
    ensures r.Ok? <==> OpsLoad(rows, saveId, head)
    ensures r.Ok? ==> r.value == OpsAbove(rows, from)
  {
    var rest: set<(nat, nat)> := rows.Keys;
    ghost var seen: set<(nat, nat)> := {};
    var operations: seq<Op> := [];
    while rest != {}
      invariant seen !! rest && seen + rest == rows.Keys
      invariant forall k :: k in seen ==> OpOk(k, rows[k], saveId, head)
      invariant OpsSoFar(rows, seen, from, operations)
      decreases rest
    {
      var k :| k in rest;
      var row := rows[k];
      if !OpOk(k, row, saveId, head) {
        return Err(Integrity);
      }
      OpsSoFarStep(rows, seen, from, operations, k, saveId, head);
      if row.revision > from {
        operations := operations + [row.payload];
      }
      rest, seen := rest - {k}, seen + {k};
    }
    assert seen == rows.Keys;
    OpsSoFarDone(rows, from, operations);
    return Ok(Sort(operations, OpRank));
  }

  /** `load_actions`. */
  method LoadActions(rows: map<ActionId, ActionRow>, saveId: nat, head: int)
    returns (r: Result<map<ActionId, CommittedAction>, StoreError>)
    ensures r.Ok? <==> ActionsLoad(rows, saveId, head)
    ensures r.Ok? ==> r.value == map k | k in rows :: rows[k].outcome
  {
    var rest := rows.Keys;
    var actions: map<ActionId, CommittedAction> := map[];
    while rest != {}
      invariant rest <= rows.Keys
      invariant forall k :: k in rows.Keys - rest ==> ActionOk(k, rows[k], saveId) && rows[k].outcome.revision <= head
      invariant actions == map k | k in rows.Keys - rest :: rows[k].outcome
      decreases rest
    {
      var k :| k in rest;
      var row := rows[k];
      if !ActionOk(k, row, saveId) || row.outcome.revision > head || row.outcome.actionId in actions {
        return Err(Integrity);
      }
      actions := actions[row.outcome.actionId := row.outcome];
      rest := rest - {k};
    }
    return Ok(actions);
  }

  /** The list holds the payloads of the rows seen so far, whose identifiers are `ids`. */
  ghost predicate EventsSoFar(
    rows: map<(nat, nat), EventRow>, seen: set<(nat, nat)>, ids: set<EventId>, events: seq<Event>)
    requires seen <= rows.Keys
  {
    && (forall k :: k in seen ==> rows[k].payload in events)
    && (forall i :: 0 <= i < |events| ==>
          && (events[i].revision, events[i].id) in seen && rows[(events[i].revision, events[i].id)].payload == events[i]
          && events[i].id in ids)
    && (forall id :: id in ids ==> HasId(events, id))
    && (forall i, j :: 0 <= i < j < |events| ==> events[i].id != events[j].id)
  }

  ghost predicate HasId(events: seq<Event>, id: EventId) {
    exists i :: 0 <= i < |events| && events[i].id == id
  }

  lemma EventsSoFarStep(
    rows: map<(nat, nat), EventRow>, seen: set<(nat, nat)>, ids: set<EventId>, events: seq<Event>, k: (nat, nat),
    saveId: nat, head: int)
    requires seen <= rows.Keys && EventsSoFar(rows, seen, ids, events)
    requires k in rows && EventOk(k, rows[k], saveId, head)
    requires rows[k].payload.id !in ids
    ensures EventsSoFar(rows, seen + {k}, ids + {rows[k].payload.id}, events + [rows[k].payload])
  {
    var events' := events + [rows[k].payload];
    forall l | l in seen + {k}
      ensures rows[l].payload in events'
    {
      assert l in seen ==> rows[l].payload in events;
    }
    forall id | id in ids + {rows[k].payload.id}
      ensures HasId(events', id)
    {
      HasIdGrows(events, rows[k].payload, id);
    }
    hide HasId;
  }

  lemma HasIdGrows(events: seq<Event>, e: Event, id: EventId)
    ensures HasId(events, id) || id == e.id ==> HasId(events + [e], id)
  {
    if HasId(events, id) {
      var i :| 0 <= i < |events| && events[i].id == id;
      assert (events + [e])[i].id == id;
    } else {
      assert (events + [e])[|events|] == e;
    }
  }

  /** Two stored rows share an event identifier. */
  lemma RepeatedEvent(
    rows: map<(nat, nat), EventRow>, seen: set<(nat, nat)>, ids: set<EventId>, events: seq<Event>, k: (nat, nat),
    saveId: nat, head: int)
    requires seen <= rows.Keys && EventsSoFar(rows, seen, ids, events)
    requires k in rows && k !in seen && rows[k].payload.id in ids
    ensures !EventsLoad(rows, saveId, head)
  {
    var i :| 0 <= i < |events| && events[i].id == rows[k].payload.id;
    var l := (events[i].revision, events[i].id);
    assert l in seen && rows[l].payload.id == rows[k].payload.id;
  }

  lemma EventsSoFarDone(rows: map<(nat, nat), EventRow>, ids: set<EventId>, events: seq<Event>, saveId: nat, head: int)
    requires EventsSoFar(rows, rows.Keys, ids, events)
    requires forall k :: k in rows ==> EventOk(k, rows[k], saveId, head)
    ensures EventsLoad(rows, saveId, head)
    ensures Sort(events, EventRank) == Arranged(StoredEvents(rows), EventRank)
    ensures forall e :: e in Sort(events, EventRank) <==> e in StoredEvents(rows)
  {
    SortStrict(events, EventRank);
    SortMembers(events, EventRank);
    forall e
      ensures e in events <==> e in StoredEvents(rows)
    {
      if e in events {
        var i :| 0 <= i < |events| && events[i] == e;
        assert (e.revision, e.id) in rows;
      }
    }
    forall k, l | k in rows && l in rows && rows[k].payload.id == rows[l].payload.id
      ensures k == l
    {
      var i :| 0 <= i < |events| && events[i] == rows[k].payload;
      var j :| 0 <= j < |events| && events[j] == rows[l].payload;
      assert i == j;
    }
    ArrangedUnique(StoredEvents(rows), EventRank, Sort(events, EventRank));
  }

  /** `load_events`. */
  method LoadEvents(rows: map<(nat, nat), EventRow>, saveId: nat, head: int)
    returns (r: Result<seq<Event>, StoreError>)
    ensures r.Ok? <==> EventsLoad(rows, saveId, head)
    ensures r.Ok? ==> r.value == Arranged(StoredEvents(rows), EventRank)
    ensures r.Ok? ==> forall e :: e in r.value <==> e in StoredEvents(rows)
  {
    var rest: set<(nat, nat)> := rows.Keys;
    ghost var seen: set<(nat, nat)> := {};
    var events: seq<Event> := [];
    var ids: set<EventId> := {};
    while rest != {}
      invariant seen !! rest && seen + rest == rows.Keys
      invariant forall k :: k in seen ==> EventOk(k, rows[k], saveId, head)
      invariant EventsSoFar(rows, seen, ids, events)
      decreases rest
    {
      var k :| k in rest;
      var row := rows[k];
      if !EventOk(k, row, saveId, head) {
        return Err(Integrity);
      }
      if row.payload.id in ids {
        RepeatedEvent(rows, seen, ids, events, k, saveId, head);
        return Err(Integrity);
      }
      EventsSoFarStep(rows, seen, ids, events, k, saveId, head);
      ids := ids + {row.payload.id};
      events := events + [row.payload];
      rest, seen := rest - {k}, seen + {k};
    }
    assert seen == rows.Keys;
    EventsSoFarDone(rows, ids, events, saveId, head);
    return Ok(Sort(events, EventRank));
  }

  function VersionRank(v: (nat, Transcript)): Rank { (v.0, v.1.id) }

  /** The list holds the versions of the rows seen so far. */
  ghost predicate VersionsSoFar(
    rows: map<(nat, nat), TranscriptRow>, seen: set<(nat, nat)>, versions: seq<(nat, Transcript)>)
    requires seen <= rows.Keys
  {
    && (forall k :: k in seen ==> (k.0, rows[k].payload) in versions)
    && (forall i :: 0 <= i < |versions| ==>
          (versions[i].0, versions[i].1.id) in seen && rows[(versions[i].0, versions[i].1.id)].payload == versions[i].1)
    && (forall i, j :: 0 <= i < j < |versions| ==> VersionRank(versions[i]) != VersionRank(versions[j]))
  }

  lemma VersionsSoFarStep(
    rows: map<(nat, nat), TranscriptRow>, seen: set<(nat, nat)>, versions: seq<(nat, Transcript)>, k: (nat, nat),
    saveId: nat, head: int)
    requires seen <= rows.Keys && VersionsSoFar(rows, seen, versions)
    requires k in rows && k !in seen && TranscriptOk(k, rows[k], saveId, head)
    ensures VersionsSoFar(rows, seen + {k}, versions + [(k.0, rows[k].payload)])
  {
    var versions' := versions + [(k.0, rows[k].payload)];
    assert forall v :: v in versions ==> v in versions';
    assert versions'[|versions|] == (k.0, rows[k].payload);
  }

  /** `current` maps every identifier among the first versions to its last occurrence, which is `at`. */
  ghost predicate LastVersions(
    versions: seq<(nat, Transcript)>, i: nat, at: map<nat, nat>, current: map<nat, Transcript>)
    requires i <= |versions|
  {
    && at.Keys == current.Keys
    && (forall j :: 0 <= j < i ==> versions[j].1.id in current)
    && (forall id :: id in current ==> LastOccurrence(versions, i, id, at[id]) && current[id] == versions[at[id]].1)
  }

  ghost predicate LastOccurrence(versions: seq<(nat, Transcript)>, i: nat, id: nat, j: nat)
    requires i <= |versions|
  {
    j < i && versions[j].1.id == id && forall l :: j < l < i ==> versions[l].1.id != id
  }

  lemma LastVersionsStep(versions: seq<(nat, Transcript)>, i: nat, at: map<nat, nat>, current: map<nat, Transcript>)
    requires i < |versions| && LastVersions(versions, i, at, current)
    ensures LastVersions(versions, i + 1, at[versions[i].1.id := i], current[versions[i].1.id := versions[i].1])
  {}

  lemma LastVersionIsNewest(
    rows: map<(nat, nat), TranscriptRow>, versions: seq<(nat, Transcript)>, id: nat, j: nat, saveId: nat, head: int)
    requires VersionsSoFar(rows, rows.Keys, versions) && StrictlySortedBy(versions, VersionRank)
    requires TranscriptsLoad(rows, saveId, head)
    requires LastOccurrence(versions, |versions|, id, j)
    ensures id in CurrentTranscripts(rows) && CurrentTranscripts(rows)[id] == versions[j].1
  {
    var k := (versions[j].0, id);
    assert k in rows && rows[k].payload == versions[j].1;
    assert versions[j].0 in Versions(rows, id);
    forall v | v in Versions(rows, id)
      ensures v <= versions[j].0
    {
      assert TranscriptOk((v, id), rows[(v, id)], saveId, head);
      var l :| 0 <= l < |versions| && versions[l] == (v, rows[(v, id)].payload);
      if l < j {
        assert Before(VersionRank(versions[l]), VersionRank(versions[j]));
      }
    }
    assert Greatest(Versions(rows, id)) == versions[j].0;
  }

  lemma CurrentIsListed(
    rows: map<(nat, nat), TranscriptRow>, versions: seq<(nat, Transcript)>, at: map<nat, nat>,
    current: map<nat, Transcript>, saveId: nat, head: int, id: nat)
    requires VersionsSoFar(rows, rows.Keys, versions) && TranscriptsLoad(rows, saveId, head)
    requires LastVersions(versions, |versions|, at, current)
    requires id in CurrentTranscripts(rows)
    ensures id in current
  {
    var k := (Greatest(Versions(rows, id)), id);
    assert TranscriptOk(k, rows[k], saveId, head);
    var l :| 0 <= l < |versions| && versions[l] == (k.0, rows[k].payload);
    assert versions[l].1.id == id;
  }

  lemma LastVersionsAreCurrent(
    rows: map<(nat, nat), TranscriptRow>, versions: seq<(nat, Transcript)>, at: map<nat, nat>,
    current: map<nat, Transcript>, saveId: nat, head: int)
    requires VersionsSoFar(rows, rows.Keys, versions) && StrictlySortedBy(versions, VersionRank)
    requires TranscriptsLoad(rows, saveId, head)
    requires LastVersions(versions, |versions|, at, current)
    ensures current == CurrentTranscripts(rows)
  {
    hide VersionsSoFar, StrictlySortedBy, TranscriptsLoad, CurrentTranscripts, LastOccurrence;
    forall id
      ensures id in current ==> id in CurrentTranscripts(rows) && CurrentTranscripts(rows)[id] == current[id]
      ensures id in CurrentTranscripts(rows) ==> id in current
    {
      if id in current {
        LastVersionIsNewest(rows, versions, id, at[id], saveId, head);
      }
      if id in CurrentTranscripts(rows) {
        CurrentIsListed(rows, versions, at, current, saveId, head, id);
      }
    }
  }

  lemma SortedVersions(rows: map<(nat, nat), TranscriptRow>, versions: seq<(nat, Transcript)>)
    requires VersionsSoFar(rows, rows.Keys, versions)
    ensures VersionsSoFar(rows, rows.Keys, Sort(versions, VersionRank))
    ensures StrictlySortedBy(Sort(versions, VersionRank), VersionRank)
  {
    var sorted := Sort(versions, VersionRank);
    SortStrict(versions, VersionRank);
    SortMembers(versions, VersionRank);
    forall i | 0 <= i < |sorted|
      ensures (sorted[i].0, sorted[i].1.id) in rows && rows[(sorted[i].0, sorted[i].1.id)].payload == sorted[i].1
    {
      assert sorted[i] in versions;
    }
    forall i, j | 0 <= i < j < |sorted|
      ensures VersionRank(sorted[i]) != VersionRank(sorted[j])
    {
      assert Before(VersionRank(sorted[i]), VersionRank(sorted[j]));
    }
  }

  /** `load_transcripts`: all versions in order, later ones replacing earlier ones. */
  method LoadTranscripts(rows: map<(nat, nat), TranscriptRow>, saveId: nat, head: int)
    returns (r: Result<map<nat, Transcript>, StoreError>)
    ensures r.Ok? <==> TranscriptsLoad(rows, saveId, head)
    ensures r.Ok? ==> r.value == CurrentTranscripts(rows)
  {
    var rest: set<(nat, nat)> := rows.Keys;
    ghost var seen: set<(nat, nat)> := {};
    var versions: seq<(nat, Transcript)> := [];
    while rest != {}
      invariant seen !! rest && seen + rest == rows.Keys
      invariant forall k :: k in seen ==> TranscriptOk(k, rows[k], saveId, head)
      invariant VersionsSoFar(rows, seen, versions)
      decreases rest
    {
      var k :| k in rest;
      var row := rows[k];
      if !TranscriptOk(k, row, saveId, head) {
        return Err(Integrity);
      }
      VersionsSoFarStep(rows, seen, versions, k, saveId, head);
      versions := versions + [(k.0, row.payload)];
      rest, seen := rest - {k}, seen + {k};
    }
    assert seen == rows.Keys;
    SortedVersions(rows, versions);
    versions := Sort(versions, VersionRank);
    var current: map<nat, Transcript> := map[];
    ghost var at: map<nat, nat> := map[];
    for i := 0 to |versions|
      invariant LastVersions(versions, i, at, current)
    {
      LastVersionsStep(versions, i, at, current);
      at := at[versions[i].1.id := i];
      current := current[versions[i].1.id := versions[i].1];
    }
    LastVersionsAreCurrent(rows, versions, at, current, saveId, head);
    return Ok(current);
  }

  /** The values of a map in rank order: iteration over a `BTreeMap`. */
  method InOrder<K(!new, ==), V(!new, ==)>(m: map<K, V>, rank: V -> Rank) returns (r: seq<V>)
    requires forall k, l :: k in m && l in m && rank(m[k]) == rank(m[l]) ==> k == l
    ensures r == Arranged(m.Values, rank)
    ensures forall v :: v in r <==> v in m.Values
  {
    var rest := m.Keys;
    ghost var seen: set<K> := {};
    var values: seq<V> := [];
    while rest != {}
      invariant seen !! rest && seen + rest == m.Keys
      invariant forall k :: k in seen ==> m[k] in values
      invariant forall i :: 0 <= i < |values| ==> exists k :: k in seen && m[k] == values[i]
      invariant forall i, j :: 0 <= i < j < |values| ==> rank(values[i]) != rank(values[j])
      decreases rest
    {
      var k :| k in rest;
      forall i | 0 <= i < |values|
        ensures rank(values[i]) != rank(m[k])
      {
        var l :| l in seen && m[l] == values[i];
      }
      ghost var values' := values + [m[k]];
      assert forall v :: v in values ==> v in values';
      assert values'[|values|] == m[k];
      values := values + [m[k]];
      rest, seen := rest - {k}, seen + {k};
    }
    assert seen == m.Keys;
    SortStrict(values, rank);
    SortMembers(values, rank);
    forall v
      ensures v in values <==> v in m.Values
    {
      if v in values {
        var i :| 0 <= i < |values| && values[i] == v;
      }
    }
    ArrangedUnique(m.Values, rank, Sort(values, rank));
    return Sort(values, rank);
  }

  /** `validate_transcript_projection`. */
  predicate ProjectionAgrees(records: RecordMap, current: map<nat, Transcript>) {
    && (forall id :: id in current ==>
          RecordKey(TRANSCRIPT_TYPE, id) in records
            && records[RecordKey(TRANSCRIPT_TYPE, id)] == TranscriptItem(current[id]))
    && (forall k :: k in records && k.recordType == TRANSCRIPT_TYPE ==> k.recordId in current)
  }

  method LoadCommittedEvents(t: Tables, saveId: nat, head: Revision) returns (r: Result<seq<Event>, StoreError>)
    ensures r.Ok? <==> EventsLoad(t.events, saveId, head) && EventsHaveActions(StoredEvents(t.events), t.actions)
    ensures r.Ok? ==> r.value == Arranged(StoredEvents(t.events), EventRank)
  {
    r := LoadEvents(t.events, saveId, head);
    if r.Ok? {
      var agree := CheckEventActions(r.value, StoredEvents(t.events), t.actions);
      if !agree {
        r := Err(Integrity);
      }
    }
  }

  method LoadProjectedTranscripts(
    t: Tables, saveId: nat, head: Revision, records: RecordMap) returns (r: Result<seq<Transcript>, StoreError>)
    ensures r.Ok? <==>
      TranscriptsLoad(t.transcripts, saveId, head) && TranscriptsProject(records, CurrentTranscripts(t.transcripts))
    ensures r.Ok? ==> r.value == Arranged(CurrentTranscripts(t.transcripts).Values, TranscriptRank)
  {
    var current := LoadTranscripts(t.transcripts, saveId, head);
    if current.Err? {
      return Err(current.error);
    }
    if !ProjectionAgrees(records, current.value) {
      return Err(Integrity);
    }
    CurrentKeyedById(t.transcripts, saveId, head);
    var transcripts := InOrder(current.value, TranscriptRank);
    return Ok(transcripts);
  }

  method LoadProjections(
    t: Tables, m: Manifest, head: Revision, records: RecordMap) returns (r: Result<LoadedSave, StoreError>)
    requires forall k :: k in records ==> KeyOf(records[k]) == k
    ensures r.Ok? <==> Projected(t, m, head, records).Some?
    ensures r.Ok? ==> r.value == Projected(t, m, head, records).value
  {
    if !WorldIdentity(records, m.worldId) {
      return Err(Integrity);
    }
    var listed := InOrder(records, RecordRank);
    var events := LoadCommittedEvents(t, m.saveId, head);
    if events.Err? {
      return Err(events.error);
    }
    var transcripts := LoadProjectedTranscripts(t, m.saveId, head, records);
    if transcripts.Err? {
      return Err(transcripts.error);
    }
    return Ok(LoadedSave(m, head, listed, events.value, transcripts.value));
  }

  lemma CurrentKeyedById(rows: map<(nat, nat), TranscriptRow>, saveId: nat, head: int)
    requires TranscriptsLoad(rows, saveId, head)
    ensures forall id :: id in CurrentTranscripts(rows) ==> CurrentTranscripts(rows)[id].id == id
  {
    forall id | id in CurrentTranscripts(rows)
      ensures CurrentTranscripts(rows)[id].id == id
    {
      var k := (Greatest(Versions(rows, id)), id);
      assert TranscriptOk(k, rows[k], saveId, head);
    }
  }

  method CheckOpActions(
    ops: seq<Op>, rows: map<ActionId, ActionRow>, actions: map<ActionId, CommittedAction>) returns (ok: bool)
    requires actions == map k | k in rows :: rows[k].outcome
    ensures ok <==> OpsHaveActions(ops, rows)
  {
    for i := 0 to |ops|
      invariant OpsHaveActions(ops[..i], rows)
    {
      if ops[i].actionId !in actions || actions[ops[i].actionId].revision != ops[i].revision {
        return false;
      }
    }
    assert ops[..|ops|] == ops;
    return true;
  }

  method CheckEventActions(
    events: seq<Event>, ghost stored: set<Event>, rows: map<ActionId, ActionRow>) returns (ok: bool)
    requires forall e :: e in events <==> e in stored
    ensures ok <==> EventsHaveActions(stored, rows)
  {
    for i := 0 to |events|
      invariant forall j :: 0 <= j < i ==>
        events[j].actionId in rows && rows[events[j].actionId].outcome.revision == events[j].revision
    {
      if events[i].actionId !in rows || rows[events[i].actionId].outcome.revision != events[i].revision {
        assert events[i] in stored;
        return false;
      }
    }
    return true;
  }

  method StageOps(
    rows: map<(nat, nat), OpRow>, saveId: nat, ops: seq<Op>) returns (staged: Option<map<(nat, nat), OpRow>>)
    ensures staged.None? <==> exists i :: 0 <= i < |ops| && (ops[i].revision, ops[i].order) in rows
    ensures staged.Some? ==> staged.value == rows + OpRows(saveId, ops)
  {
    var written := rows;
    for i := 0 to |ops|
      invariant written == rows + OpRows(saveId, ops[..i])
      invariant forall j :: 0 <= j < i ==> (ops[j].revision, ops[j].order) !in rows
    {
      if (ops[i].revision, ops[i].order) in rows {
        return None;
      }
      assert ops[..i + 1][..i] == ops[..i];
      written := written[(ops[i].revision, ops[i].order) := OpRowFor(saveId, ops[i])];
    }
    assert ops[..|ops|] == ops;
    return Some(written);
  }

  method StageEvents(rows: map<(nat, nat), EventRow>, saveId: nat, events: seq<Event>)
    returns (staged: Option<map<(nat, nat), EventRow>>)
    ensures staged.None? <==> exists i :: 0 <= i < |events| && (events[i].revision, events[i].id) in rows
    ensures staged.Some? ==> staged.value == rows + EventRows(saveId, events)
  {
    var written := rows;
    for i := 0 to |events|
      invariant written == rows + EventRows(saveId, events[..i])
      invariant forall j :: 0 <= j < i ==> (events[j].revision, events[j].id) !in rows
    {
      if (events[i].revision, events[i].id) in rows {
        return None;
      }
      assert events[..i + 1][..i] == events[..i];
      written := written[(events[i].revision, events[i].id) := EventRowFor(saveId, events[i])];
    }
    assert events[..|events|] == events;
    return Some(written);
  }

  lemma StagedTranscriptKey(saveId: nat, revision: nat, transcripts: seq<Transcript>, id: nat)
    requires DistinctTranscripts(transcripts)
    ensures (revision, id) in TranscriptRows(saveId, revision, transcripts) <==>
      exists j :: 0 <= j < |transcripts| && transcripts[j].id == id
  {
    TranscriptRowsExact(saveId, revision, transcripts, (revision, id));
    if (revision, id) in TranscriptRows(saveId, revision, transcripts) {
      var x := TranscriptRows(saveId, revision, transcripts)[(revision, id)].payload;
      var j :| 0 <= j < |transcripts| && transcripts[j] == x;
      assert transcripts[j].id == id;
    }
  }

  method StageTranscripts(
    rows: map<(nat, nat), TranscriptRow>, saveId: nat, revision: nat, transcripts: seq<Transcript>)
    returns (staged: Option<map<(nat, nat), TranscriptRow>>)
    ensures staged.None? <==>
      (exists i :: 0 <= i < |transcripts| && (revision, transcripts[i].id) in rows) || !DistinctTranscripts(transcripts)
    ensures staged.Some? ==> staged.value == rows + TranscriptRows(saveId, revision, transcripts)
  {
    hide DistinctTranscripts, TranscriptRows;
    var added: map<(nat, nat), TranscriptRow> := map[];
    NoTranscripts(saveId, revision, transcripts);
    for i := 0 to |transcripts|
      invariant added == TranscriptRows(saveId, revision, transcripts[..i])
      invariant forall j :: 0 <= j < i ==> (revision, transcripts[j].id) !in rows
      invariant DistinctTranscripts(transcripts[..i])
    {
      StagedTranscriptKey(saveId, revision, transcripts[..i], transcripts[i].id);
      NextTranscript(saveId, revision, transcripts, i);
      if (revision, transcripts[i].id) in rows || (revision, transcripts[i].id) in added {
        return None;
      }
      added := added[(revision, transcripts[i].id) := TranscriptRowFor(saveId, revision, transcripts[i])];
    }
    assert transcripts[..|transcripts|] == transcripts;
    return Some(rows + added);
  }

  lemma NoTranscripts(saveId: nat, revision: nat, transcripts: seq<Transcript>)
    ensures TranscriptRows(saveId, revision, transcripts[..0]) == map[] && DistinctTranscripts(transcripts[..0])
  {}

  lemma NextTranscript(saveId: nat, revision: nat, transcripts: seq<Transcript>, i: nat)
    requires i < |transcripts| && DistinctTranscripts(transcripts[..i])
    ensures TranscriptRows(saveId, revision, transcripts[..i + 1])
      == TranscriptRows(saveId, revision,
        transcripts[..i])[(revision, transcripts[i].id) := TranscriptRowFor(saveId, revision, transcripts[i])]
    ensures var seen := exists j :: 0 <= j < |transcripts[..i]| && transcripts[..i][j].id == transcripts[i].id;
      (seen ==> !DistinctTranscripts(transcripts)) && (!seen ==> DistinctTranscripts(transcripts[..i + 1]))
  {
    assert transcripts[..i + 1] == transcripts[..i] + [transcripts[i]];
    if j :| 0 <= j < |transcripts[..i]| && transcripts[..i][j].id == transcripts[i].id {
      assert transcripts[j].id == transcripts[i].id;
    }
  }

  /** Create the operation, event and transcript rows, or report a reused key. */
  method StageRows(t: Tables, saveId: nat, r: CommitRequest) returns (staged: Option<Tables>)
    ensures staged.None? <==> KeyCollision(t, r)
    ensures staged.Some? ==> staged.value == t.(
      recordOps := t.recordOps + OpRows(saveId, r.recordOps),
      events := t.events + EventRows(saveId, r.events),
      transcripts := t.transcripts + TranscriptRows(saveId, r.outcome.revision, r.transcripts))
  {
    var recordOps := StageOps(t.recordOps, saveId, r.recordOps);
    if recordOps.None? {
      return None;
    }
    var events := StageEvents(t.events, saveId, r.events);
    if events.None? {
      return None;
    }
    var transcripts := StageTranscripts(t.transcripts, saveId, r.outcome.revision, r.transcripts);
    if transcripts.None? {
      return None;
    }
    return Some(t.(recordOps := recordOps.value, events := events.value, transcripts := transcripts.value));
  }

  // ---------------------------------------------------------------- handles

  class SaveStore {
    const db: SaveDatabase
    var manifest: Manifest
    var revision: Revision

    constructor (db: SaveDatabase, manifest: Manifest, revision: Revision)
      ensures this.db == db && this.manifest == manifest && this.revision == revision
    {
      this.db := db;
      this.manifest := manifest;
      this.revision := revision;
    }

    /** `commit`: stage every row, refusing a reused primary key, then commit. */
    method Commit(r: CommitRequest, fate: Fate) returns (reply: Result<CommitReply, StoreError>)
      modifies this`revision, db`tables
      ensures var step := CommitTx(old(db.tables), manifest, old(revision), r, fate);
        db.tables == step.tables && revision == step.revision && reply == step.reply
    {
      var checked := Validate(r);
      if checked.Err? {
        return Err(InvalidRequest(checked.error));
      }
      if r.outcome.revision > I64_MAX {
        return Err(RevisionOutOfRange);
      }
      if fate == Unavailable {
        return Err(Backend);
      }
      var t := db.tables;
      if r.command.actionId in t.actions {
        var existing := t.actions[r.command.actionId];
        if !ActionOk(r.command.actionId, existing, manifest.saveId) {
          return Err(Integrity);
        }
        if existing.requestDigest == r.command {
          return Ok(AlreadyCommitted(existing.outcome));
        }
        return Ok(IdentityConflict(r.command.actionId));
      }
      if manifest.saveId !in t.heads {
        return Err(Backend);
      }
      var head := t.heads[manifest.saveId];
      var valid := CheckHead(head);
      if !valid {
        return Err(Integrity);
      }
      if head.revision != r.command.expectedRevision {
        return Ok(Conflict(r.command.expectedRevision, head.revision));
      }
      var staged := StageRows(t, manifest.saveId, r);
      if staged.None? {
        return Err(Backend);
      }
      var written := staged.value.(
        actions := staged.value.actions[r.command.actionId := ActionRowFor(manifest.saveId, r)],
        heads := t.heads[manifest.saveId := head.(revision := r.outcome.revision,
          checksum := HeadDigest(r.outcome.revision, manifest))]);
      assert written == WithCommit(t, manifest, r);
      match fate
      case Succeeds =>
        db.tables := written;
        revision := r.outcome.revision;
        return Ok(Committed(r.outcome));
      case LostAfter =>
        db.tables := written;
        return Err(Backend);
      case SerializationFailure(reread) =>
        if reread.None? {
          return Err(Backend);
        }
        valid := CheckHead(reread.value);
        if !valid {
          return Err(Integrity);
        }
        revision := reread.value.revision;
        return Ok(Conflict(r.command.expectedRevision, reread.value.revision));
      case _ =>
        return Err(Backend);
    }

    /** `resolve_action`. */
    method ResolveAction(command: Command, available: bool) returns (reply: Result<Resolution, StoreError>)
      modifies this`revision
      ensures var step := ResolveTx(db.tables, manifest, old(revision), command, available);
        revision == step.revision && reply == step.reply
    {
      if !available {
        return Err(Backend);
      }
      if command.actionId in db.tables.actions {
        var row := db.tables.actions[command.actionId];
        if !ActionOk(command.actionId, row, manifest.saveId) {
          return Err(Integrity);
        }
        if row.requestDigest == command {
          return Ok(ResolvedCommitted(row.outcome));
        }
        return Ok(ResolvedConflict(command.actionId));
      }
      if manifest.saveId !in db.tables.heads {
        return Err(Backend);
      }
      var head := db.tables.heads[manifest.saveId];
      var valid := CheckHead(head);
      if !valid {
        return Err(Integrity);
      }
      revision := head.revision;
      return Ok(NotCommitted(head.revision));
    }

    /** The first half of `load`: head, checkpoint, log, actions and replay. */
    method LoadRecords() returns (r: Result<RecordSet, StoreError>)
      ensures r.Ok? <==> LoadedRecords(db.tables, manifest).Some?
      ensures r.Ok? ==> DecodableSet(r.value) && Decoded(r.value) == LoadedRecords(db.tables, manifest).value
    {
      var t := db.tables;
      if manifest.saveId !in t.heads {
        return Err(Backend);
      }
      var row := t.heads[manifest.saveId];
      var valid := CheckHead(row);
      if !valid || row.manifest != manifest {
        return Err(Integrity);
      }
      var saveId, head := manifest.saveId, row.revision;
      var checkpoint := LoadCheckpoint(t.checkpoints, saveId, head);
      if checkpoint.Err? {
        return Err(checkpoint.error);
      }
      var operations := LoadRecordOps(t.recordOps, saveId, checkpoint.value.0, head);
      if operations.Err? {
        return Err(operations.error);
      }
      var actions := LoadActions(t.actions, saveId, head);
      if actions.Err? {
        return Err(actions.error);
      }
      var agree := CheckOpActions(operations.value, t.actions, actions.value);
      if !agree {
        return Err(Integrity);
      }
      var rebuilt := RebuildRecords(checkpoint.value.0, checkpoint.value.1, operations.value);
      if rebuilt.Err? || rebuilt.value.0 != head || !DecodableSet(rebuilt.value.1) {
        return Err(Integrity);
      }
      return Ok(rebuilt.value.1);
    }

    /** `load`: the replayed records, then the event and transcript projections. */
    method Load() returns (r: Result<LoadedSave, StoreError>)
      modifies this`revision
      ensures r.Ok? <==> LoadResult(db.tables, manifest).Some?
      ensures r.Ok? ==> r.value == LoadResult(db.tables, manifest).value && revision == r.value.revision
      ensures r.Err? ==> revision == old(revision)
    {
      var t := db.tables;
      var loaded := LoadRecords();
      if loaded.Err? {
        return Err(loaded.error);
      }
      var head := t.heads[manifest.saveId].revision;
      r := LoadProjections(t, manifest, head, Decoded(loaded.value));
      if r.Ok? {
        revision := head;
      }
    }

    /**
     * `checkpoint`: write the loaded records, which the caller must supply, at
     * the loaded revision; other handles may commit between the load and the write.
     */
    method Checkpoint(
      records: seq<DomainRecord>, fate: Fate, meanwhile: Tables -> Tables) returns (reply: Result<(), StoreError>)
      modifies this`revision, db`tables
      ensures var prepared := PrepareCheckpointTx(old(db.tables), manifest, old(revision), records);
        if prepared.reply.Err? then db.tables == old(db.tables) && revision == prepared.revision && reply.Err?
        else
          var step := WriteCheckpointTx(meanwhile(old(db.tables)), manifest.saveId, prepared.revision,
            prepared.reply.value, fate);
          db.tables == step.tables && revision == step.revision && reply == step.reply
    {
      hide LoadResult, EnvelopesOf, WriteCheckpointTx;
      var fault := ListingFault(records, manifest.worldId);
      if fault.Some? {
        return Err(fault.value);
      }
      var envelopes := EnvelopesOf(records, revision);
      ghost var expected := LoadResult(db.tables, manifest);
      var loaded := Load();
      assert loaded.Ok? <==> expected.Some?;
      if loaded.Err? {
        return Err(loaded.error);
      }
      if envelopes != EnvelopesOf(loaded.value.records, revision) {
        return Err(Integrity);
      }
      db.tables := meanwhile(db.tables);
      reply := WriteCheckpoint(envelopes, fate);
    }

    /** The transaction of `checkpoint`: the head must not have moved, and an existing row must be identical. */
    method WriteCheckpoint(envelopes: seq<Envelope>, fate: Fate) returns (reply: Result<(), StoreError>)
      modifies this`revision, db`tables
      ensures var step := WriteCheckpointTx(old(db.tables), manifest.saveId, old(revision), envelopes, fate);
        db.tables == step.tables && revision == step.revision && reply == step.reply
    {
      if fate == Unavailable || manifest.saveId !in db.tables.heads {
        return Err(Backend);
      }
      var head := db.tables.heads[manifest.saveId];
      var valid := CheckHead(head);
      if !valid {
        return Err(Integrity);
      }
      if head.revision != revision {
        revision := head.revision;
        return Err(InvalidStoreCommit);
      }
      var row := CheckpointRowFor(manifest.saveId, revision, envelopes);
      if revision in db.tables.checkpoints {
        if db.tables.checkpoints[revision] == row {
          return Ok(());
        }
        return Err(Integrity);
      }
      var written := db.tables.(checkpoints := db.tables.checkpoints[revision := row]);
      match fate
      case Succeeds =>
        db.tables := written;
        return Ok(());
      case LostAfter =>
        db.tables := written;
        return Err(Backend);
      case _ =>
        return Err(Backend);
    }

    /** `adopt_content_locks`: replace the locks in the head, keeping its revision. */
    method AdoptContentLocks(
      worldLock: WorldLock, modLock: seq<LockedMod>, fate: Fate) returns (reply: Result<(), StoreError>)
      modifies this`manifest, db`tables
      ensures var step := AdoptTx(old(db.tables), old(manifest), revision, worldLock, modLock, fate);
        && db.tables == step.tables && (reply.Ok? <==> step.reply.Ok?)
        && manifest == if step.reply.Ok? then step.reply.value else old(manifest)
    {
      var candidate := manifest.(worldLock := worldLock, modLock := modLock);
      var valid := CheckManifest(candidate);
      if !valid {
        return Err(StoreError.InvalidManifest);
      }
      if fate == Unavailable || manifest.saveId !in db.tables.heads {
        return Err(Backend);
      }
      var head := db.tables.heads[manifest.saveId];
      valid := CheckHead(head);
      if !valid {
        return Err(Integrity);
      }
      if head.manifest != manifest || head.revision != revision {
        return Err(InvalidStoreCommit);
      }
      if candidate == manifest {
        return Ok(());
      }
      var row := head.(manifest := candidate, checksum := HeadDigest(revision, candidate));
      var adopted := db.tables.(heads := db.tables.heads[manifest.saveId := row]);
      match fate
      case Succeeds =>
        db.tables := adopted;
        manifest := candidate;
        return Ok(());
      case LostAfter =>
        db.tables := adopted;
        return Err(Backend);
      case _ =>
        return Err(Backend);
    }

    /** `connect`: a second handle, which must read the same manifest. */
    method Connect() returns (r: Result<SaveStore, StoreError>)
      ensures r.Ok? <==> |db.tables.heads| == 1 && HeadLoads(db.tables.heads, manifest)
      ensures r.Ok? ==> fresh(r.value) && r.value.db == db && r.value.manifest == manifest
      ensures r.Ok? ==> r.value.revision == db.tables.heads[manifest.saveId].revision
    {
      var heads := db.tables.heads;
      if |heads| != 1 || manifest.saveId !in heads {
        return Err(Integrity);
      }
      var head := heads[manifest.saveId];
      var valid := CheckHead(head);
      if !valid || head.manifest != manifest {
        return Err(Integrity);
      }
      var handle := new SaveStore(db, manifest, head.revision);
      return Ok(handle);
    }
  }

  // --------------------------------------------------------------- creation

  function KeyedRecords(records: seq<DomainRecord>): RecordMap
    requires DistinctRecordKeys(records)
  {
    map i | 0 <= i < |records| :: KeyOf(records[i]) := records[i]
  }

  predicate InitialTranscripts(transcripts: seq<Transcript>) {
    forall i :: 0 <= i < |transcripts| ==> transcripts[i].revision.Some? ==> transcripts[i].revision.value == 0
  }

  /** What `create` accepts. */
  ghost predicate Creatable(m: Manifest, records: seq<DomainRecord>) {
    && ValidManifest(m)
    && ValidRecords(records) && DistinctRecordKeys(records)
    && ListedWorldIdentity(records, m.worldId)
    && InitialTranscripts(TranscriptsOf(records))
  }

  /** A save can be created exactly of valid records, each key once, among them the one world state, none committed. */
  lemma CreatableExactly(m: Manifest, records: seq<DomainRecord>)
    ensures Creatable(m, records) <==>
      && ValidManifest(m)
      && (forall r :: r in records ==> ValidRecord(r))
      && (forall i, j :: 0 <= i < j < |records| ==> KeyOf(records[i]) != KeyOf(records[j]))
      && (exists r :: r in records && r.WorldState? && r.worldId == m.worldId)
      && (forall a, b :: a in records && b in records && a.WorldState? && b.WorldState? ==> a == b)
      && (forall t :: TranscriptItem(t) in records ==> t.revision == None || t.revision == Some(0))
  {
    hide ValidManifest, ValidRecord;
    var transcripts := TranscriptsOf(records);
    forall t
      ensures t in transcripts <==> TranscriptItem(t) in records
    {
      TranscriptsOfMembers(records, t);
    }
    hide TranscriptsOf;
    assert InitialTranscripts(transcripts) <==>
      forall t :: t in transcripts ==> t.revision == None || t.revision == Some(0);
    if DistinctRecordKeys(records) {
      WorldListedOnce(records, m.worldId);
    }
  }

  lemma WorldListedOnce(records: seq<DomainRecord>, worldId: nat)
    requires forall i, j :: 0 <= i < j < |records| ==> KeyOf(records[i]) != KeyOf(records[j])
    ensures ListedWorldIdentity(records, worldId) <==>
      && (exists r :: r in records && r.WorldState? && r.worldId == worldId)
      && (forall a, b :: a in records && b in records && a.WorldState? && b.WorldState? ==> a == b)
  {
    if i, j :| 0 <= i < j < |records| && records[i].WorldState? && records[j].WorldState? {
      assert records[i] in records && records[j] in records;
    }
  }

  function InitialTables(m: Manifest, records: seq<DomainRecord>): Tables {
    Tables(
      map[m.saveId := HeadRowFor(0, m)],
      map[0 := CheckpointRowFor(m.saveId, 0, EnvelopesOf(records, 0))],
      map[], map[],
      TranscriptRows(m.saveId, 0, TranscriptsOf(records)),
      map[])
  }

  /** `create`: one transaction writing the head, the first checkpoint and the transcripts. */
  method CreateSave(
    db: SaveDatabase, m: Manifest, records: seq<DomainRecord>, fate: Fate) returns (r: Result<SaveStore, StoreError>)
    modifies db
    ensures r.Ok? <==> !old(db.created) && Creatable(m, records) && fate == Succeeds
    ensures r.Ok? ==> fresh(r.value) && r.value.db == db && r.value.manifest == m && r.value.revision == 0
    ensures !old(db.created) && Creatable(m, records) ==> db.created
    ensures db.tables == if !old(db.created) && Creatable(m, records) && (fate == Succeeds || fate == LostAfter)
      then InitialTables(m, records) else old(db.tables)
  {
    if db.created {
      return Err(SaveAlreadyExists);
    }
    var valid := CheckManifest(m);
    if !valid {
      return Err(StoreError.InvalidManifest);
    }
    if !ValidRecords(records) || !DistinctRecordKeys(records) {
      return Err(InvalidRecords);
    }
    if !ListedWorldIdentity(records, m.worldId) {
      return Err(Integrity);
    }
    var transcripts := TranscriptsOf(records);
    if !InitialTranscripts(transcripts) {
      return Err(InvalidStoreCommit);
    }
    db.created := true;
    TranscriptsOfDistinct(records);
    var rows := StageTranscripts(map[], m.saveId, 0, transcripts);
    var written := Tables(
      map[m.saveId := HeadRowFor(0, m)],
      map[0 := CheckpointRowFor(m.saveId, 0, EnvelopesOf(records, 0))],
      map[], map[], rows.value, map[]);
    match fate
    case Succeeds =>
      db.tables := written;
      var handle := new SaveStore(db, m, 0);
      return Ok(handle);
    case LostAfter =>
      db.tables := written;
      return Err(Backend);
    case _ =>
      return Err(Backend);
  }

  lemma KeyedValues(records: seq<DomainRecord>)
    requires DistinctRecordKeys(records)
    ensures forall k :: k in KeyedRecords(records) ==> KeyOf(KeyedRecords(records)[k]) == k
    ensures forall r :: r in records <==> r in KeyedRecords(records).Values
  {
    var keyed := KeyedRecords(records);
    forall r
      ensures r in records <==> r in keyed.Values
    {
      if r in records {
        var i :| 0 <= i < |records| && records[i] == r;
        assert KeyOf(records[i]) in keyed && keyed[KeyOf(records[i])] == records[i];
      }
    }
  }

  lemma KeyedAreGood(m: Manifest, records: seq<DomainRecord>)
    requires Creatable(m, records)
    ensures GoodInitial(KeyedRecords(records), m.worldId)
  {
    hide ValidRecord, ValidManifest, TranscriptsOf;
    var keyed := KeyedRecords(records);
    var w :| 0 <= w < |records| && records[w].WorldState? && records[w].worldId == m.worldId;
    assert KeyOf(records[w]) in keyed;
    forall k | k in keyed
      ensures KeyOf(keyed[k]) == k && ValidRecord(keyed[k])
      ensures k.recordType == WORLD_STATE_TYPE ==> k.recordId == m.worldId
      ensures keyed[k].TranscriptItem? && keyed[k].transcript.revision.Some? ==> keyed[k].transcript.revision.value == 0
    {
      var i :| 0 <= i < |records| && KeyOf(records[i]) == k && keyed[k] == records[i];
      assert records[i].WorldState? ==> i == w;
      if records[i].TranscriptItem? {
        TranscriptsOfMembers(records, records[i].transcript);
        assert records[i].transcript in TranscriptsOf(records);
      }
    }
  }

  lemma InitialTranscriptRows(saveId: nat, records: seq<DomainRecord>)
    requires DistinctRecordKeys(records)
    ensures TranscriptsRepresent(TranscriptRows(saveId, 0, TranscriptsOf(records)), saveId, KeyedRecords(records), [])
  {
    var keyed, transcripts := KeyedRecords(records), TranscriptsOf(records);
    var rows := TranscriptRows(saveId, 0, transcripts);
    TranscriptsOfDistinct(records);
    forall x
      ensures x in transcripts <==> WroteTranscript(keyed, [], 0, x)
    {
      TranscriptsOfMembers(records, x);
      if TranscriptItem(x) in records {
        var i :| 0 <= i < |records| && records[i] == TranscriptItem(x);
        assert KeyOf(records[i]) in keyed;
      }
    }
    forall k: (nat, nat)
      ensures k in rows ==> WroteTranscript(keyed, [], k.0, rows[k].payload)
      ensures k in rows ==> k.1 == rows[k].payload.id && rows[k] == TranscriptRowFor(saveId, k.0, rows[k].payload)
      ensures forall x :: x in transcripts ==> (0, x.id) in rows && rows[(0, x.id)].payload == x
    {
      TranscriptRowsExact(saveId, 0, transcripts, k);
    }
    forall n: nat, x | WroteTranscript(keyed, [], n, x)
      ensures (n, x.id) in rows && rows[(n, x.id)].payload == x
    {
      TranscriptRowsExact(saveId, 0, transcripts, (n, x.id));
    }
  }

  /** A created save represents its initial records with no commits. */
  lemma CreatedRepresents(m: Manifest, records: seq<DomainRecord>)
    requires Creatable(m, records)
    ensures Represents(InitialTables(m, records), m, KeyedRecords(records), [])
  {
    var t, keyed := InitialTables(m, records), KeyedRecords(records);
    KeyedAreGood(m, records);
    FirstCheckpoint(m.saveId, records);
    InitialTranscriptRows(m.saveId, records);
    NoCommitRows(m.saveId);
    RowsTogether(t, m, keyed, []);
  }

  lemma FirstCheckpoint(saveId: nat, records: seq<DomainRecord>)
    requires DistinctRecordKeys(records)
    ensures CheckpointsRepresent(map[0 := CheckpointRowFor(saveId, 0, EnvelopesOf(records, 0))], saveId,
      KeyedRecords(records), [])
  {
    KeyedValues(records);
    ListingGivesCheckpoint(records, KeyedRecords(records), 0);
    var none: History := [];
    assert none[..0] == none;
  }

  lemma NoCommitRows(saveId: nat)
    ensures OpsRepresent(map[], saveId, []) && EventsRepresent(map[], saveId, []) && ActionsRepresent(map[], saveId, [])
  {}

  /** The system right after creation: the creating handle alone. */
  ghost function CreatedSystem(m: Manifest, records: seq<DomainRecord>): System {
    System(InitialTables(m, records), map[0 := Handle(m, 0, None)])
  }

  /**
   * From creation on, after every interleaving of commits, resolutions, loads,
   * checkpoints, adoptions and connections in any fates, loading succeeds and
   * returns the fold of the commits that took effect over the initial records.
   */
  lemma EveryRunLoadsFold(m: Manifest, records: seq<DomainRecord>, run: seq<Act>)
    requires Creatable(m, records)
    requires AdmissibleRun(CreatedSystem(m, records), Chronicle(m, []), KeyedRecords(records), run)
    ensures var end := RecordAll(Chronicle(m, []), CreatedSystem(m, records), run);
      LoadResult(PerformAll(CreatedSystem(m, records), run).tables, end.manifest)
      == Some(SavedState(end.manifest, KeyedRecords(records), end.history))
  {
    hide Represents, LoadResult, SavedState;
    CreatedRepresents(m, records);
    RunLoadsFold(CreatedSystem(m, records), Chronicle(m, []), KeyedRecords(records), run);
  }
}
