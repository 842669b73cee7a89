/**
 * What a load notices: a row that was altered or moved, an action that is gone.
 * And what any load that succeeds guarantees, whatever tables it read.
 */
module SaveIntegrity {
  import opened Outcomes
  import opened Ordering
  import opened Records
  import opened ChangeSets
  import opened Requests
  import opened Locks
  import opened SaveTables
  import opened SaveHistory
  import opened SaveLoading
  import opened SaveProtocol

  // ---------------------------------------------------------- altered rows

  /** The row under `k` was altered without renewing its checksum. */
  datatype Damage =
    | DamagedHead(head: HeadRow)
    | DamagedCheckpoint(c: nat, checkpoint: CheckpointRow)
    | DamagedOp(ok: (nat, nat), op: OpRow)
    | DamagedEvent(ek: (nat, nat), event: EventRow)
    | DamagedTranscript(tk: (nat, nat), transcript: TranscriptRow)
    | DamagedAction(ak: ActionId, action: ActionRow)

  /** Some row is there and differs from this one in more than the checksum. */
  ghost predicate Damages(t: Tables, m: Manifest, d: Damage) {
    match d
    case DamagedHead(row) =>
      m.saveId in t.heads && row != t.heads[m.saveId] && row.checksum == t.heads[m.saveId].checksum
    case DamagedCheckpoint(k, row) =>
      k in t.checkpoints && row != t.checkpoints[k] && row.checksum == t.checkpoints[k].checksum
    case DamagedOp(k, row) =>
      k in t.recordOps && row != t.recordOps[k] && row.checksum == t.recordOps[k].checksum
    case DamagedEvent(k, row) =>
      k in t.events && row != t.events[k] && row.checksum == t.events[k].checksum
    case DamagedTranscript(k, row) =>
      k in t.transcripts && row != t.transcripts[k] && row.checksum == t.transcripts[k].checksum
    case DamagedAction(k, row) =>
      k in t.actions && row != t.actions[k] && row.checksum == t.actions[k].checksum
  }

  ghost function Damaged(t: Tables, m: Manifest, d: Damage): Tables {
    match d
    case DamagedHead(row) => t.(heads := t.heads[m.saveId := row])
    case DamagedCheckpoint(k, row) => t.(checkpoints := t.checkpoints[k := row])
    case DamagedOp(k, row) => t.(recordOps := t.recordOps[k := row])
    case DamagedEvent(k, row) => t.(events := t.events[k := row])
    case DamagedTranscript(k, row) => t.(transcripts := t.transcripts[k := row])
    case DamagedAction(k, row) => t.(actions := t.actions[k := row])
  }

  ghost predicate RowsSound(t: Tables, m: Manifest) {
    && HeadLoads(t.heads, m)
    && var head := t.heads[m.saveId].revision;
       && CheckpointsLoad(t.checkpoints, m.saveId, head) && OpsLoad(t.recordOps, m.saveId, head)
       && ActionsLoad(t.actions, m.saveId, head) && EventsLoad(t.events, m.saveId, head)
       && TranscriptsLoad(t.transcripts, m.saveId, head)
  }

  /** Every row of loadable tables is sound. */
  lemma LoadedRowsAreSound(t: Tables, m: Manifest)
    ensures LoadResult(t, m).Some? ==> RowsSound(t, m)
  {
    hide HeadLoads, CheckpointsLoad, OpsLoad, ActionsLoad, EventsLoad, TranscriptsLoad, CheckpointOrdered,
      OpsHaveActions, EventsHaveActions, TranscriptsProject, WorldIdentity;
  }

  /** Whatever column of whatever row of a loadable save is altered, it does not load any more. */
  lemma DamageStopsLoad(t: Tables, m: Manifest, d: Damage)
    requires LoadResult(t, m).Some? && Damages(t, m, d)
    ensures LoadResult(Damaged(t, m, d), m).None?
  {
    hide LoadResult, Damages, Damaged, RowsSound;
    LoadedRowsAreSound(t, m);
    LoadedRowsAreSound(Damaged(t, m, d), m);
    DamagedIsUnsound(t, m, d);
  }

  lemma DamagedIsUnsound(t: Tables, m: Manifest, d: Damage)
    requires RowsSound(t, m) && Damages(t, m, d)
    ensures !RowsSound(Damaged(t, m, d), m)
  {
    hide ValidManifest;
    match d
    case DamagedHead(row) => assert !HeadOk(row) || row.manifest != m;
    case DamagedCheckpoint(k, row) => assert k in Damaged(t, m, d).checkpoints;
    case DamagedOp(k, row) => assert k in Damaged(t, m, d).recordOps;
    case DamagedEvent(k, row) => assert k in Damaged(t, m, d).events;
    case DamagedTranscript(k, row) => assert k in Damaged(t, m, d).transcripts;
    case DamagedAction(k, row) => assert k in Damaged(t, m, d).actions;
  }

  /** A row copied to another key does not load either. */
  lemma MovedRowStopsLoad(t: Tables, m: Manifest, k: (nat, nat), l: (nat, nat))
    requires LoadResult(t, m).Some? && k != l
    ensures k in t.recordOps ==> LoadResult(t.(recordOps := t.recordOps[l := t.recordOps[k]]), m).None?
    ensures k in t.events ==> LoadResult(t.(events := t.events[l := t.events[k]]), m).None?
    ensures k in t.transcripts ==> LoadResult(t.(transcripts := t.transcripts[l := t.transcripts[k]]), m).None?
  {
    hide LoadResult, HeadLoads;
    LoadedRowsAreSound(t, m);
    if k in t.recordOps {
      var rows := t.recordOps[l := t.recordOps[k]];
      LoadedRowsAreSound(t.(recordOps := rows), m);
      assert l in rows;
    }
    if k in t.events {
      var rows := t.events[l := t.events[k]];
      LoadedRowsAreSound(t.(events := rows), m);
      assert l in rows;
    }
    if k in t.transcripts {
      var rows := t.transcripts[l := t.transcripts[k]];
      LoadedRowsAreSound(t.(transcripts := rows), m);
      assert l in rows;
    }
  }

  // --------------------------------------------------------- a missing action

  ghost function WithoutAction(t: Tables, action: ActionId): Tables {
    t.(actions := t.actions - {action})
  }

  /**
   * A save from which one action's row is gone still loads exactly if the
   * action had no event and the newest checkpoint is at its revision or later.
   */
  lemma MissingAction(t: Tables, m: Manifest, initial: RecordMap, h: History, i: nat)
    requires Represents(t, m, initial, h) && i < |h|
    ensures LoadResult(WithoutAction(t, h[i].command.actionId), m).Some? <==>
      h[i].events == [] && exists c :: c in t.checkpoints && c > i
  {
    var action := h[i].command.actionId;
    var t' := WithoutAction(t, action);
    var from := Greatest(t.checkpoints.Keys);
    hide LoadResult, RecordsAfter, ActionOk, GoodHistory, GoodInitial, CheckpointsRepresent, OpsRepresent,
      EventsRepresent, TranscriptsRepresent, ActionsRepresent, ValidManifest, CommittedEvents, OpsFrom;
    LoadingNeedsActions(t, t', m, initial, h);
    LostFromOps(t.actions, m, initial, h, i, from);
    LostFromEvents(t.actions, m, initial, h, i);
    CheckpointKeys(t.checkpoints, m.saveId, initial, h);
    assert from in t.checkpoints;
  }

  lemma CheckpointKeys(rows: map<nat, CheckpointRow>, saveId: nat, initial: RecordMap, h: History)
    requires CheckpointsRepresent(rows, saveId, initial, h)
    ensures 0 in rows && IsGreatest(Greatest(rows.Keys), rows.Keys)
  {
    assert 0 in rows.Keys;
  }

  /** With only actions taken away, loading depends on what still refers to them. */
  lemma LoadingNeedsActions(t: Tables, t': Tables, m: Manifest, initial: RecordMap, h: History)
    requires Represents(t, m, initial, h)
    requires t' == t.(actions := t'.actions) && t'.actions.Keys <= t.actions.Keys
    requires forall a :: a in t'.actions ==> t'.actions[a] == t.actions[a]
    ensures LoadResult(t', m).Some? <==>
      && OpsHaveActions(OpsFrom(h, Greatest(t.checkpoints.Keys)), t'.actions)
      && EventsHaveActions(CommittedEvents(h), t'.actions)
  {
    hide Represents, LoadResult, OpsHaveActions, EventsHaveActions, OpsAbove, StoredEvents, OpsFrom, CommittedEvents,
      SavedState;
    LoadIsFold(t, m, initial, h);
    HasCheckpoint(t, m, initial, h);
    SelectedRows(t, m, initial, h, Greatest(t.checkpoints.Keys));
    OnlyActionsGone(t, t', m);
  }

  lemma HasCheckpoint(t: Tables, m: Manifest, initial: RecordMap, h: History)
    requires Represents(t, m, initial, h)
    ensures 0 in t.checkpoints && t.checkpoints.Keys != {}
  {
    assert 0 in t.checkpoints.Keys;
  }

  lemma OnlyActionsGone(t: Tables, t': Tables, m: Manifest)
    requires LoadResult(t, m).Some?
    requires t' == t.(actions := t'.actions) && t'.actions.Keys <= t.actions.Keys
    requires forall a :: a in t'.actions ==> t'.actions[a] == t.actions[a]
    ensures LoadResult(t', m).Some? <==>
      && OpsHaveActions(OpsAbove(t.recordOps, Greatest(t.checkpoints.Keys)), t'.actions)
      && EventsHaveActions(StoredEvents(t.events), t'.actions)
  {
    hide HeadLoads, CheckpointsLoad, OpsLoad, EventsLoad, TranscriptsLoad, OpsAbove, StoredEvents, OpsHaveActions,
      EventsHaveActions, ActionOk, CheckpointOrdered, WorldIdentity, TranscriptsProject, Rebuilt, DecodableSet,
      Decoded, CurrentTranscripts, Arranged;
  }

  lemma SelectedRows(t: Tables, m: Manifest, initial: RecordMap, h: History, from: nat)
    requires Represents(t, m, initial, h)
    ensures OpsAbove(t.recordOps, from) == OpsFrom(h, from) && StoredEvents(t.events) == CommittedEvents(h)
  {
    hide GoodHistory, RecordsAfter, CheckpointsRepresent, TranscriptsRepresent, ActionsRepresent;
    OpsSelected(t.recordOps, m.saveId, initial, m.worldId, h, from);
    EventsSelected(t.events, m.saveId, initial, m.worldId, h);
  }

  lemma OneActionEach(initial: RecordMap, worldId: nat, h: History, i: nat, j: nat)
    requires GoodHistory(initial, worldId, h) && i < j < |h|
    ensures h[i].command.actionId != h[j].command.actionId
  {
    GoodHistoryPrefix(initial, worldId, h, j + 1);
    assert h[..j + 1][..j] == h[..j];
    assert h[..j][i] == h[i];
    assert h[i].command.actionId in UsedActions(h[..j]);
  }

  lemma RevisionOfAction(m: Manifest, initial: RecordMap, h: History, i: nat, j: nat)
    requires GoodSave(m, initial, h) && i < |h| && j < |h|
    ensures h[i].command.actionId == h[j].command.actionId ==> i == j
  {
    if i < j {
      OneActionEach(initial, m.worldId, h, i, j);
    } else if j < i {
      OneActionEach(initial, m.worldId, h, j, i);
    }
  }

  lemma LostFromOps(
    rows: map<ActionId, ActionRow>, m: Manifest, initial: RecordMap, h: History, i: nat, from: nat)
    requires GoodSave(m, initial, h) && ActionsRepresent(rows, m.saveId, h) && i < |h|
    ensures OpsHaveActions(OpsFrom(h, from), rows - {h[i].command.actionId}) <==> i < from
  {
    hide GoodHistory, GoodInitial, ActionsRepresent, OpsFrom, HasOp, ValidManifest, OpsHaveActions, ActionsLoad;
    ActionsSelected(rows, m.saveId, initial, m.worldId, h, from);
    OpsLose(OpsFrom(h, from), rows, h[i].command.actionId);
    OpsAboveOwn(m, initial, h, i, from);
  }

  lemma OpsLose(ops: seq<Op>, rows: map<ActionId, ActionRow>, action: ActionId)
    requires OpsHaveActions(ops, rows)
    ensures OpsHaveActions(ops, rows - {action}) <==> forall op :: op in ops ==> op.actionId != action
  {
    if forall op :: op in ops ==> op.actionId != action {
      forall k | 0 <= k < |ops|
        ensures ops[k].actionId != action
      {
        assert ops[k] in ops;
      }
    }
  }

  lemma OpsAboveOwn(m: Manifest, initial: RecordMap, h: History, i: nat, from: nat)
    requires GoodSave(m, initial, h) && i < |h|
    ensures (forall op :: op in OpsFrom(h, from) ==> op.actionId != h[i].command.actionId) <==> i < from
  {
    hide GoodHistory, GoodInitial, OpsFrom, ValidManifest;
    OpsFromFacts(initial, m.worldId, h, from);
    if i >= from {
      FirstOp(m, initial, h, i);
      assert h[i].recordOps[0] in OpsFrom(h, from);
    } else {
      forall op | op in OpsFrom(h, from)
        ensures op.actionId != h[i].command.actionId
      {
        OpOfAnother(m, initial, h, i, op);
      }
    }
  }

  lemma FirstOp(m: Manifest, initial: RecordMap, h: History, i: nat)
    requires GoodSave(m, initial, h) && i < |h|
    ensures h[i].recordOps != []
    ensures var op := h[i].recordOps[0]; HasOp(h, op) && op.revision == i + 1 && op.actionId == h[i].command.actionId
  {
    hide GoodHistory;
    WellFormedIsValid(initial, m.worldId, h, i);
    ValidRequestIsBlock(h[i]);
  }

  lemma OpOfAnother(m: Manifest, initial: RecordMap, h: History, i: nat, op: Op)
    requires GoodSave(m, initial, h) && i < |h| && HasOp(h, op) && op.revision != i + 1
    ensures op.actionId != h[i].command.actionId
  {
    var j := op.revision - 1;
    RevisionOfAction(m, initial, h, i, j);
    hide GoodHistory;
    WellFormedIsValid(initial, m.worldId, h, j);
    ValidRequestIsBlock(h[j]);
  }

  lemma LostFromEvents(rows: map<ActionId, ActionRow>, m: Manifest, initial: RecordMap, h: History, i: nat)
    requires GoodSave(m, initial, h) && ActionsRepresent(rows, m.saveId, h) && i < |h|
    ensures EventsHaveActions(CommittedEvents(h), rows - {h[i].command.actionId}) <==> h[i].events == []
  {
    hide GoodHistory, GoodInitial, ActionsRepresent, OpsFrom, OpsHaveActions, ActionsLoad, ValidManifest,
      CommittedEvents;
    ActionsSelected(rows, m.saveId, initial, m.worldId, h, 0);
    EventsOfOwn(m, initial, h, i);
  }

  lemma EventsOfOwn(m: Manifest, initial: RecordMap, h: History, i: nat)
    requires GoodSave(m, initial, h) && i < |h|
    ensures (forall e :: e in CommittedEvents(h) ==> e.actionId != h[i].command.actionId) <==> h[i].events == []
  {
    hide GoodSave;
    if h[i].events != [] {
      EventOwner(m, initial, h, i, i, 0);
      assert h[i].events[0] in CommittedEvents(h);
    } else {
      forall e | e in CommittedEvents(h)
        ensures e.actionId != h[i].command.actionId
      {
        var p, q :| 0 <= p < |h| && 0 <= q < |h[p].events| && h[p].events[q] == e;
        EventOwner(m, initial, h, i, p, q);
      }
    }
  }

  lemma EventOwner(m: Manifest, initial: RecordMap, h: History, i: nat, p: nat, q: nat)
    requires GoodSave(m, initial, h) && i < |h| && p < |h| && q < |h[p].events|
    ensures h[p].events[q].actionId == h[i].command.actionId <==> p == i
  {
    RevisionOfAction(m, initial, h, i, p);
    hide GoodHistory;
    WellFormedIsValid(initial, m.worldId, h, p);
    ValidRequestIsBlock(h[p]);
  }

  // -------------------------------------------------- what a load guarantees

  /**
   * Whatever tables a load succeeds on, what it returns is consistent: valid
   * records once each in key order, the one world state, exactly the transcripts
   * among the records, and events once each in order that belong to stored actions.
   */
  ghost predicate Consistent(t: Tables, m: Manifest, s: LoadedSave) {
    && s.manifest == m
    && StrictlySortedBy(s.records, RecordRank) && (forall r :: r in s.records ==> ValidRecord(r))
    && (exists r :: r in s.records && r.WorldState? && r.worldId == m.worldId)
    && (forall r :: r in s.records && r.WorldState? ==> r.worldId == m.worldId)
    && StrictlySortedBy(s.transcripts, TranscriptRank)
    && (forall x :: x in s.transcripts <==> TranscriptItem(x) in s.records)
    && (forall x :: x in s.transcripts ==>
          && (x.committed ==> x.revision.Some?)
          && (forall i, j :: 0 <= i < j < |x.supporting| ==> x.supporting[i] != x.supporting[j]))
    && StrictlySortedBy(s.events, EventRank)
    && (forall a, b :: a in s.events && b in s.events && a.id == b.id ==> a == b)
    && (forall e :: e in s.events ==>
          && e.revision <= s.revision && e.actionId in t.actions && t.actions[e.actionId].outcome.revision == e.revision
          && t.actions[e.actionId].command.actionId == e.actionId)
  }

  lemma LoadedIsConsistent(t: Tables, m: Manifest)
    requires LoadResult(t, m).Some?
    ensures Consistent(t, m, LoadResult(t, m).value)
  {
    hide LoadResult, Arranged, EventsLoad, ActionsLoad, TranscriptsLoad, EventsHaveActions, TranscriptsProject,
      WorldIdentity, KeyedAndValid, StoredEvents, CurrentTranscripts, HeadLoads;
    var records := LoadedParts(t, m);
    RecordsArranged(records, m.worldId);
    EventsArranged(t, m, t.heads[m.saveId].revision);
    TranscriptsArranged(t.transcripts, m.saveId, t.heads[m.saveId].revision, records);
    TranscriptsValid(Arranged(records.Values, RecordRank));
  }

  lemma TranscriptsValid(records: seq<DomainRecord>)
    requires forall r :: r in records ==> ValidRecord(r)
    ensures forall x :: TranscriptItem(x) in records ==>
      && (x.committed ==> x.revision.Some?)
      && (forall i, j :: 0 <= i < j < |x.supporting| ==> x.supporting[i] != x.supporting[j])
  {
    forall x | TranscriptItem(x) in records
      ensures ValidRecord(TranscriptItem(x))
    {}
  }

  lemma LoadedParts(t: Tables, m: Manifest) returns (records: RecordMap)
    requires LoadResult(t, m).Some?
    ensures m.saveId in t.heads && t.heads[m.saveId].revision >= 0
    ensures var head: nat := t.heads[m.saveId].revision;
      && KeyedAndValid(records) && WorldIdentity(records, m.worldId)
      && EventsLoad(t.events, m.saveId, head) && ActionsLoad(t.actions, m.saveId, head)
      && EventsHaveActions(StoredEvents(t.events), t.actions)
      && TranscriptsLoad(t.transcripts, m.saveId, head)
        && TranscriptsProject(records, CurrentTranscripts(t.transcripts))
      && LoadResult(t, m).value == LoadedSave(m, head, Arranged(records.Values, RecordRank),
           Arranged(StoredEvents(t.events), EventRank),
           Arranged(CurrentTranscripts(t.transcripts).Values, TranscriptRank))
  {
    records := LoadedRecords(t, m).value;
    LoadedRowsAreSound(t, m);
    LoadedDecoded(t, m);
    hide LoadedRecords, CheckpointsLoad, OpsLoad, Arranged, EventsLoad, ActionsLoad, TranscriptsLoad,
      EventsHaveActions, TranscriptsProject, WorldIdentity, KeyedAndValid, StoredEvents, CurrentTranscripts;
  }

  /** No stored row is of a revision beyond the head, and every action's row tells of one command. */
  lemma LoadedWithinHead(t: Tables, m: Manifest)
    requires LoadResult(t, m).Some?
    ensures var head := LoadResult(t, m).value.revision;
      && ValidManifest(m)
      && (forall c :: c in t.checkpoints ==> c <= head)
      && (forall k: (nat, nat) :: k in t.recordOps ==> OpWithin(k, t.recordOps[k], head))
      && (forall k :: k in t.events ==> k.0 <= head)
      && (forall k :: k in t.transcripts ==> k.0 <= head)
      && (forall a :: a in t.actions ==>
            ActionWithin(a, t.actions[a]) && t.actions[a].outcome.revision <= head)
  {
    LoadedRowsAreSound(t, m);
    LoadedRevision(t, m);
    hide LoadResult, OpOk, ActionOk, EventOk, TranscriptOk, CheckpointOk, ValidManifest;
    forall k | k in t.recordOps
      ensures OpWithin(k, t.recordOps[k], LoadResult(t, m).value.revision)
    {
      SoundOpWithin(k, t.recordOps[k], m.saveId, LoadResult(t, m).value.revision);
    }
    forall a | a in t.actions
      ensures ActionWithin(a, t.actions[a])
    {
      SoundActionWithin(a, t.actions[a], m.saveId);
    }
    RowsWithin(t, m.saveId, LoadResult(t, m).value.revision);
  }

  ghost predicate OpWithin(k: (nat, nat), row: OpRow, head: nat) {
    var op := row.payload; op.revision == k.0 <= head && op.order == k.1 && op.actionId == row.actionId
  }

  ghost predicate ActionWithin(a: ActionId, row: ActionRow) {
    row.outcome.actionId == a && row.command.actionId == a && row.command == row.requestDigest
  }

  lemma SoundOpWithin(k: (nat, nat), row: OpRow, saveId: nat, head: nat)
    requires OpOk(k, row, saveId, head)
    ensures OpWithin(k, row, head)
  {}

  lemma SoundActionWithin(a: ActionId, row: ActionRow, saveId: nat)
    requires ActionOk(a, row, saveId)
    ensures ActionWithin(a, row)
  {}

  lemma RowsWithin(t: Tables, saveId: nat, head: nat)
    requires CheckpointsLoad(t.checkpoints, saveId, head) && EventsLoad(t.events, saveId, head)
      && TranscriptsLoad(t.transcripts, saveId, head)
    ensures forall c :: c in t.checkpoints ==> c <= head
    ensures forall k :: k in t.events ==> k.0 <= head
    ensures forall k :: k in t.transcripts ==> k.0 <= head
  {}

  lemma LoadedRevision(t: Tables, m: Manifest)
    requires LoadResult(t, m).Some?
    ensures m.saveId in t.heads && LoadResult(t, m).value.revision == t.heads[m.saveId].revision
  {
    hide CheckpointsLoad, OpsLoad, ActionsLoad, EventsLoad, TranscriptsLoad, CheckpointOrdered, OpsHaveActions,
      EventsHaveActions, TranscriptsProject, WorldIdentity, Arranged;
  }

  /** What replay accepts has an operation of every revision it passes. */
  lemma {:induction false} EveryRevisionReplayed(s: ReplayState, ops: seq<Op>, revision: Revision)
    requires Replay(s, ops).Ok? && s.revision < revision <= Replay(s, ops).value.revision
    ensures exists i :: 0 <= i < |ops| && ops[i].revision == revision
    decreases |ops|
  {
    var next := ReplayOne(s, ops[0]).value;
    if ops[0].revision != revision {
      EveryRevisionReplayed(next, ops[1..], revision);
      var i :| 0 <= i < |ops[1..]| && ops[1..][i].revision == revision;
      assert ops[i + 1].revision == revision;
    }
  }

  /**
   * The log a load accepts has no gap from the newest checkpoint to the head,
   * and each of its operations belongs to the stored action of its revision;
   * that checkpoint ascends by key and holds nothing newer than itself.
   */
  lemma LoadedLogIsComplete(t: Tables, m: Manifest, c: nat, revision: nat)
    requires LoadResult(t, m).Some? && IsGreatest(c, t.checkpoints.Keys)
    ensures c < revision <= LoadResult(t, m).value.revision ==>
      exists k :: k in t.recordOps && k.0 == revision
    ensures forall k :: k in t.recordOps && k.0 > c ==>
      var op := t.recordOps[k].payload;
      op.actionId in t.actions && t.actions[op.actionId].outcome.revision == k.0
    ensures var records := t.checkpoints[c].records;
      && (forall i :: 0 <= i < |records| ==> records[i].revision <= c)
      && (forall i, j :: 0 <= i < j < |records| ==> Before(KeyRank(records[i].key), KeyRank(records[j].key)))
  {
    hide LoadResult, OpsAbove, HeadLoads, CheckpointsLoad, OpsLoad, ActionsLoad, EventsLoad, TranscriptsLoad, Rebuilt,
      OpsHaveActions;
    LoadedRowsAreSound(t, m);
    LoadedRevision(t, m);
    assert Greatest(t.checkpoints.Keys) == c;
    LoadedReplay(t, m);
    var ops := OpsAbove(t.recordOps, c);
    SelectedOps(t.recordOps, m.saveId, t.heads[m.saveId].revision, c);
    if c < revision <= LoadResult(t, m).value.revision {
      var k := RevisionStored(t.recordOps, c, t.checkpoints[c].records, revision);
    }
    forall k: (nat, nat) | k in t.recordOps && k.0 > c
      ensures ActionMatches(t.actions, t.recordOps[k].payload)
      ensures t.recordOps[k].payload.revision == k.0
    {
      assert t.recordOps[k].payload in ops;
      OpHasAction(ops, t.actions, t.recordOps[k].payload);
      SoundOp(t, m, k);
    }
  }

  ghost predicate ActionMatches(actions: map<ActionId, ActionRow>, op: Op) {
    op.actionId in actions && actions[op.actionId].outcome.revision == op.revision
  }

  lemma OpHasAction(ops: seq<Op>, actions: map<ActionId, ActionRow>, op: Op)
    requires OpsHaveActions(ops, actions) && op in ops
    ensures ActionMatches(actions, op)
  {}

  lemma SoundOp(t: Tables, m: Manifest, k: (nat, nat))
    requires RowsSound(t, m) && k in t.recordOps
    ensures t.recordOps[k].payload.revision == k.0
  {
    hide HeadLoads, CheckpointsLoad, ActionsLoad, EventsLoad, TranscriptsLoad;
  }

  lemma RevisionStored(rows: map<(nat, nat), OpRow>, c: nat, checkpoint: seq<Envelope>, revision: nat)
    returns (k: (nat, nat))
    requires Rebuilt(c, checkpoint, OpsAbove(rows, c)).Ok?
    requires c < revision <= Rebuilt(c, checkpoint, OpsAbove(rows, c)).value.0
    requires forall op :: op in OpsAbove(rows, c) ==> (op.revision, op.order) in rows
    ensures k in rows && k.0 == revision
  {
    hide OpsAbove, Rebuilt, Replay;
    var ops := OpsAbove(rows, c);
    var seeded := ReplayedFrom(c, checkpoint, ops);
    EveryRevisionReplayed(seeded, ops, revision);
    var i :| 0 <= i < |ops| && ops[i].revision == revision;
    assert ops[i] in ops;
    k := (ops[i].revision, ops[i].order);
  }

  lemma ReplayedFrom(c: nat, checkpoint: seq<Envelope>, ops: seq<Op>) returns (s: ReplayState)
    requires Rebuilt(c, checkpoint, ops).Ok?
    ensures s.revision == c && Replay(s, ops).Ok?
      && Replay(s, ops).value.revision == Rebuilt(c, checkpoint, ops).value.0
  {
    s := ReplayState(c, None, 0, SeedRecords(c, checkpoint, map[]).value);
  }

  lemma LoadedReplay(t: Tables, m: Manifest)
    requires LoadResult(t, m).Some? && m.saveId in t.heads
    ensures t.checkpoints.Keys != {}
    ensures var c := Greatest(t.checkpoints.Keys);
      var ops := OpsAbove(t.recordOps, c);
      && CheckpointOrdered(t.checkpoints[c].records, c) && OpsHaveActions(ops, t.actions)
      && Rebuilt(c, t.checkpoints[c].records, ops).Ok?
      && Rebuilt(c, t.checkpoints[c].records, ops).value.0 == t.heads[m.saveId].revision
  {
    hide HeadLoads, OpsLoad, ActionsLoad, EventsLoad, TranscriptsLoad, CheckpointOrdered, OpsHaveActions,
      EventsHaveActions, TranscriptsProject, WorldIdentity, Arranged, Rebuilt;
  }

  lemma SelectedOps(rows: map<(nat, nat), OpRow>, saveId: nat, head: int, c: nat)
    requires OpsLoad(rows, saveId, head)
    ensures forall op :: op in OpsAbove(rows, c) <==> exists k :: k in rows && k.0 > c && rows[k].payload == op
    ensures forall op :: op in OpsAbove(rows, c) ==> (op.revision, op.order) in rows
  {
    var s := set k | k in rows && k.0 > c :: rows[k].payload;
    forall x, y | x in s && y in s && OpRank(x) == OpRank(y)
      ensures x == y
    {
      var k, l :| k in rows && rows[k].payload == x && l in rows && rows[l].payload == y;
    }
    ArrangedFacts(s, OpRank);
    hide Arranged;
  }

  /** What a load replays are envelopes of the current schema, each of the record stored under its own key. */
  lemma LoadedSchemas(t: Tables, m: Manifest, c: nat)
    requires LoadResult(t, m).Some? && IsGreatest(c, t.checkpoints.Keys)
    ensures var rebuilt := Rebuilt(c, t.checkpoints[c].records, OpsAbove(t.recordOps, c));
      && rebuilt.Ok?
      && (forall k :: k in rebuilt.value.1 ==>
            var e := rebuilt.value.1[k];
            e.key == k == KeyOf(e.payload) && e.schema == 1 && ValidRecord(e.payload))
  {
    assert Greatest(t.checkpoints.Keys) == c;
    hide HeadLoads, OpsLoad, ActionsLoad, EventsLoad, TranscriptsLoad, CheckpointOrdered, OpsHaveActions,
      EventsHaveActions, TranscriptsProject, WorldIdentity, Arranged, Rebuilt;
  }

  lemma LoadedDecoded(t: Tables, m: Manifest)
    requires LoadedRecords(t, m).Some?
    ensures KeyedAndValid(LoadedRecords(t, m).value)
  {}

  ghost predicate KeyedAndValid(records: RecordMap) {
    forall k :: k in records ==> KeyOf(records[k]) == k && ValidRecord(records[k])
  }

  lemma RecordsArranged(records: RecordMap, worldId: nat)
    requires KeyedAndValid(records) && WorldIdentity(records, worldId)
    ensures var listed := Arranged(records.Values, RecordRank);
      && StrictlySortedBy(listed, RecordRank) && (forall r :: r in listed <==> r in records.Values)
      && (forall r :: r in listed ==> ValidRecord(r))
      && (exists r :: r in listed && r.WorldState? && r.worldId == worldId)
      && (forall r :: r in listed && r.WorldState? ==> r.worldId == worldId)
  {
    forall x, y | x in records.Values && y in records.Values && RecordRank(x) == RecordRank(y)
      ensures x == y
    {
      assert KeyOf(x) == KeyOf(y);
    }
    ArrangedFacts(records.Values, RecordRank);
    hide Arranged;
    var k :| k in records && records[k].WorldState? && records[k].worldId == worldId;
    assert records[k] in records.Values;
  }

  lemma EventsArranged(t: Tables, m: Manifest, head: nat)
    requires EventsLoad(t.events, m.saveId, head) && ActionsLoad(t.actions, m.saveId, head)
    requires EventsHaveActions(StoredEvents(t.events), t.actions)
    ensures var events := Arranged(StoredEvents(t.events), EventRank);
      && StrictlySortedBy(events, EventRank)
      && (forall a, b :: a in events && b in events && a.id == b.id ==> a == b)
      && (forall e :: e in events ==>
            && e.revision <= head && e.actionId in t.actions && t.actions[e.actionId].outcome.revision == e.revision
            && t.actions[e.actionId].command.actionId == e.actionId)
  {
    var s := StoredEvents(t.events);
    forall a, b | a in s && b in s && a.id == b.id
      ensures a == b
    {
      var k, l :| k in t.events && t.events[k].payload == a && l in t.events && t.events[l].payload == b;
    }
    ArrangedFacts(s, EventRank);
    hide Arranged;
    forall e | e in s
      ensures e.revision <= head
    {
      var k :| k in t.events && t.events[k].payload == e;
    }
  }

  lemma TranscriptsArranged(rows: map<(nat, nat), TranscriptRow>, saveId: nat, head: nat, records: RecordMap)
    requires TranscriptsLoad(rows, saveId, head) && TranscriptsProject(records, CurrentTranscripts(rows))
    requires KeyedAndValid(records)
    ensures var listed := Arranged(CurrentTranscripts(rows).Values, TranscriptRank);
      && StrictlySortedBy(listed, TranscriptRank)
      && (forall x :: x in listed <==> TranscriptItem(x) in records.Values)
  {
    var current := CurrentTranscripts(rows);
    forall id | id in current
      ensures current[id].id == id
    {}
    hide CurrentTranscripts, TranscriptsLoad;
    forall x
      ensures x in current.Values <==> TranscriptItem(x) in records.Values
    {
      if x in current.Values {
        var id :| id in current && current[id] == x;
        assert records[RecordKey(TRANSCRIPT_TYPE, id)] == TranscriptItem(x);
      }
      if TranscriptItem(x) in records.Values {
        var k :| k in records && records[k] == TranscriptItem(x);
        assert k == RecordKey(TRANSCRIPT_TYPE, x.id);
        assert current[x.id] == x;
      }
    }
    ArrangedFacts(current.Values, TranscriptRank);
  }
}
