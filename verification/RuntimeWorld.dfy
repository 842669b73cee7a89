/**
 * The live world kept beside the save: it executes commands in memory first,
 * commits them, and reloads from the store whenever the two may disagree.
 */
module RuntimeWorlds {
  import opened Outcomes
  import opened Ordering
  import opened Records
  import opened ChangeSets
  import opened Requests
  import opened SaveTables
  import opened SaveHistory
  import opened SaveLoading
  import opened SaveProtocol
  import opened SaveStores

  /** Session parameters are not persisted; only their identity matters. */
  type Session = nat

  /** What executing a command in memory did to the world. */
  datatype Execution =
    | Executed(changes: ChangeSet, newRecords: RecordMap, newSession: Session)
    | Refused(leftRecords: RecordMap, leftRevision: Revision, leftSession: Session)

  /** How a reload fares, apart from what the tables hold. */
  datatype Recovery = Recovers | ReadFails | RebuildFails

  datatype RuntimeError = WorldRefused | NotAvailable | StoreFailed(
    cause: StoreError) | RequestFailed(fault: RequestError)

  // --------------------------------------------------------------- meaning

  /** The world a history stands for. */
  ghost predicate IsWorldOf(
    records: RecordMap, revision: Revision, events: seq<Event>, initial: RecordMap, h: History)
  {
    && records == RecordsAfter(initial, h)
    && revision == |h|
    && AllEvents(events, h)
  }

  ghost predicate AllEvents(events: seq<Event>, h: History) {
    events == Arranged(CommittedEvents(h), EventRank)
  }

  /** Some of a history's events, in order. */
  ghost predicate Lags(events: seq<Event>, h: History) {
    StrictlySortedBy(events, EventRank) && forall e :: e in events ==> HasEvent(h, e)
  }

  lemma AllEventsLag(initial: RecordMap, worldId: nat, h: History, events: seq<Event>)
    requires GoodHistory(initial, worldId, h) && AllEvents(events, h)
    ensures Lags(events, h)
  {
    CommittedEventRanks(initial, worldId, h);
    ArrangedFacts(CommittedEvents(h), EventRank);
  }

  /** All of a history's events and no others, in order. */
  ghost predicate Lists(events: seq<Event>, h: History) {
    Lags(events, h) && forall i, e :: 0 <= i < |h| && e in h[i].events ==> e in events
  }

  lemma AllEventsListed(initial: RecordMap, worldId: nat, h: History, events: seq<Event>)
    requires GoodHistory(initial, worldId, h) && AllEvents(events, h)
    ensures Lists(events, h)
  {
    hide GoodHistory, Arranged;
    AllEventsLag(initial, worldId, h, events);
    CommittedEventRanks(initial, worldId, h);
    ArrangedFacts(CommittedEvents(h), EventRank);
    forall i, e | 0 <= i < |h| && e in h[i].events
      ensures e in events
    {
      assert e in CommittedEvents(h);
    }
  }

  lemma WorldListed(
    initial: RecordMap, worldId: nat, h: History, records: RecordMap, revision: Revision, events: seq<Event>)
    requires GoodHistory(initial, worldId, h) && IsWorldOf(records, revision, events, initial, h)
    ensures Lists(events, h)
  {
    hide GoodHistory;
    AllEventsListed(initial, worldId, h, events);
  }

  lemma HeldIsValid(
    t: Tables, m: Manifest, records: RecordMap, revision: Revision, events: seq<Event>, initial: RecordMap, h: History)
    requires Represents(t, m, initial, h) && IsWorldOf(records, revision, events, initial, h)
    ensures SelfKeyed(records) && SortedBy(events, EventRank)
  {
    SavedRecordsAreGood(t, m, initial, h);
    SavedHistoryIsGood(t, m, initial, h);
    hide Represents, GoodHistory, RecordsAfter, AllEvents;
    AllEventsLag(initial, m.worldId, h, events);
  }

  lemma LagsOn(events: seq<Event>, h: History, later: History)
    requires Lags(events, h) && h <= later
    ensures Lags(events, later)
  {
    forall e | e in events
      ensures HasEvent(later, e)
    {
      assert later[e.revision - 1] == h[e.revision - 1];
    }
  }

  /** The world holds what loading the save would return now. */
  ghost predicate MatchesLoad(t: Tables, m: Manifest, records: RecordMap, revision: Revision, events: seq<Event>) {
    var loaded := LoadResult(t, m);
    && loaded.Some?
    && loaded.value.revision == revision
    && loaded.value.records == Arranged(records.Values, RecordRank)
    && loaded.value.events == events
  }

  lemma WorldMatchesLoad(
    t: Tables, m: Manifest, records: RecordMap, revision: Revision, events: seq<Event>, initial: RecordMap, h: History)
    requires Represents(t, m, initial, h) && IsWorldOf(records, revision, events, initial, h)
    ensures MatchesLoad(t, m, records, revision, events)
  {
    LoadIsFold(t, m, initial, h);
  }

  /** What other handles may do while this one is between two transactions. */
  ghost predicate Continues(t: Tables, m: Manifest, initial: RecordMap, h: History, later: History, mine: ActionId) {
    && Represents(t, m, initial, later)
    && h <= later
    && forall i :: |h| <= i < |later| ==> later[i].command.actionId != mine
  }

  ghost predicate Interference(meanwhile: Tables -> Tables, m: Manifest, initial: RecordMap, mine: ActionId) {
    forall t, h :: Represents(t, m, initial, h) ==> exists later :: Continues(meanwhile(t), m, initial, h, later, mine)
  }

  /** The command is durable in the history. */
  ghost predicate Durable(h: History, command: Command) {
    exists i :: 0 <= i < |h| && h[i].command == command
  }

  // ---------------------------------------------------- the executed world

  lemma CommittedEventRanks(initial: RecordMap, worldId: nat, h: History)
    requires GoodHistory(initial, worldId, h)
    ensures InjectiveOn(CommittedEvents(h), EventRank)
    ensures forall e :: e in CommittedEvents(h) <==> HasEvent(h, e)
    ensures forall a, b :: a in CommittedEvents(h) && b in CommittedEvents(h) && a.id == b.id ==> a == b
  {
    forall e
      ensures e in CommittedEvents(h) <==> HasEvent(h, e)
    {
      if e in CommittedEvents(h) {
        var i, j :| 0 <= i < |h| && 0 <= j < |h[i].events| && h[i].events[j] == e;
        GoodHistoryAt(initial, worldId, h, i);
        assert e in h[i].events;
      }
    }
    forall a, b | HasEvent(h, a) && HasEvent(h, b) && a.id == b.id
      ensures a == b
    {
      EventRevisionsAgree(initial, worldId, h, a, b);
      EventRevisionsAgree(initial, worldId, h, b, a);
      SameBlockSameEvent(initial, worldId, h, a, b);
    }
  }

  lemma SameBlockSameEvent(initial: RecordMap, worldId: nat, h: History, a: Event, b: Event)
    requires GoodHistory(initial, worldId, h)
    requires HasEvent(h, a) && HasEvent(h, b) && a.id == b.id && a.revision == b.revision
    ensures a == b
  {
    var events := h[a.revision - 1].events;
    GoodHistoryAt(initial, worldId, h, a.revision - 1);
    var i :| 0 <= i < |events| && events[i] == a;
    var j :| 0 <= j < |events| && events[j] == b;
    assert EventIds(events)[i] == EventIds(events)[j];
  }

  lemma EventsGrow(h: History, r: CommitRequest)
    ensures CommittedEvents(h + [r]) == CommittedEvents(h) + (set j | 0 <= j < |r.events| :: r.events[j])
  {
    var h' := h + [r];
    forall e
      ensures e in CommittedEvents(h') <==> e in CommittedEvents(h) || e in r.events
    {
      if e in CommittedEvents(h') {
        var i, j :| 0 <= i < |h'| && 0 <= j < |h'[i].events| && h'[i].events[j] == e;
        if i < |h| {
          assert h[i].events[j] == e;
        }
      }
      if e in CommittedEvents(h) {
        var i, j :| 0 <= i < |h| && 0 <= j < |h[i].events| && h[i].events[j] == e;
        assert h'[i].events[j] == e;
      }
      if e in r.events {
        var j :| 0 <= j < |r.events| && r.events[j] == e;
        assert h'[|h|].events[j] == e;
      }
    }
  }

  predicate ListsId(events: seq<Event>, id: EventId) {
    exists i :: 0 <= i < |events| && events[i].id == id
  }

  /** The events, then each added one whose identifier is not listed yet. */
  function WithNew(events: seq<Event>, added: seq<Event>): seq<Event>
    decreases |added|
  {
    if added == [] then events
    else
      var before, last := WithNew(events, added[..|added| - 1]), added[|added| - 1];
      if ListsId(before, last.id) then before else before + [last]
  }

  /** Merging is the union by identifier: what is listed stays, and no identifier is repeated or missed. */
  lemma {:induction false} MergeIsUnion(events: seq<Event>, added: seq<Event>)
    ensures events <= WithNew(events, added)
    ensures forall id :: ListsId(WithNew(events, added), id) <==> ListsId(events, id) || ListsId(added, id)
    ensures forall e :: e in WithNew(events, added) ==> e in events || (e in added && !ListsId(events, e.id))
    ensures Distinct(EventIds(events)) ==> Distinct(EventIds(WithNew(events, added)))
    decreases |added|
  {
    if added != [] {
      var rest, last := added[..|added| - 1], added[|added| - 1];
      var before := WithNew(events, rest);
      MergeIsUnion(events, rest);
      assert added == rest + [last];
      forall id
        ensures ListsId(added, id) <==> ListsId(rest, id) || id == last.id
        ensures ListsId(before + [last], id) <==> ListsId(before, id) || id == last.id
      {
        GrownIds(rest, last, id);
        GrownIds(before, last, id);
      }
      if !ListsId(before, last.id) && Distinct(EventIds(events)) {
        assert EventIds(before + [last]) == EventIds(before) + [last.id];
      }
    }
  }

  lemma GrownIds(events: seq<Event>, last: Event, id: EventId)
    ensures ListsId(events + [last], id) <==> ListsId(events, id) || id == last.id
  {
    if i :| 0 <= i < |events| && events[i].id == id {
      assert (events + [last])[i].id == id;
    }
    assert (events + [last])[|events|] == last;
  }

  /** Fresh distinct identifiers are all appended. */
  lemma {:induction false} FreshMerge(events: seq<Event>, added: seq<Event>)
    requires forall i :: 0 <= i < |added| ==> !ListsId(events, added[i].id)
    requires Distinct(EventIds(added))
    ensures WithNew(events, added) == events + added
    decreases |added|
  {
    if added != [] {
      var rest, last := added[..|added| - 1], added[|added| - 1];
      assert EventIds(rest) == EventIds(added)[..|rest|];
      FreshMerge(events, rest);
      forall i | 0 <= i < |events + rest|
        ensures (events + rest)[i].id != last.id
      {
        assert i >= |events| ==> EventIds(added)[i - |events|] != EventIds(added)[|added| - 1];
      }
    }
  }

  lemma ListedIdsUsed(h: History, events: seq<Event>, id: EventId)
    requires forall e :: e in events ==> HasEvent(h, e)
    requires id !in UsedEvents(h)
    ensures !ListsId(events, id)
  {
    assert h[..|h|] == h;
    forall i | 0 <= i < |events|
      ensures events[i].id in UsedEvents(h)
    {
      assert events[i] in events;
      EventIsUsed(h, events[i], |h|);
    }
  }

  /** Merging a commit's new events and sorting follows the history, and keeps a complete list complete. */
  lemma MergedEvents(initial: RecordMap, worldId: nat, h: History, r: CommitRequest, events: seq<Event>)
    requires GoodHistory(initial, worldId, h + [r]) && Lags(events, h)
    ensures WithNew(events, r.events) == events + r.events
    ensures var merged := Sort(events + r.events, EventRank);
      && Lags(merged, h + [r])
      && (forall e :: e in r.events ==> e in merged)
      && (AllEvents(events, h) ==> AllEvents(merged, h + [r]))
  {
    var merged := Sort(events + r.events, EventRank);
    assert (h + [r])[..|h|] == h;
    GoodHistoryAt(initial, worldId, h + [r], |h|);
    hide Sort, GoodHistory, WithNew, Arranged, CommittedEvents, ListsId;
    forall i | 0 <= i < |r.events|
      ensures !ListsId(events, r.events[i].id)
    {
      ListedIdsUsed(h, events, r.events[i].id);
    }
    FreshMerge(events, r.events);
    MergedRanksDistinct(h, r, events);
    SortStrict(events + r.events, EventRank);
    SortMembers(events + r.events, EventRank);
    forall e | e in merged
      ensures HasEvent(h + [r], e)
    {
      assert e in events ==> HasEvent(h, e);
      assert e in r.events ==> e.revision == |h| + 1;
    }
    if AllEvents(events, h) {
      MergedIsAll(initial, worldId, h, r, events, merged);
    }
  }

  lemma MergedIsAll(
    initial: RecordMap, worldId: nat, h: History, r: CommitRequest, events: seq<Event>, merged: seq<Event>)
    requires GoodHistory(initial, worldId, h + [r]) && GoodHistory(initial, worldId, h) && AllEvents(events, h)
    requires StrictlySortedBy(merged, EventRank) && forall e :: e in merged <==> e in events + r.events
    ensures AllEvents(merged, h + [r])
  {
    var all := CommittedEvents(h + [r]);
    CommittedEventRanks(initial, worldId, h);
    CommittedEventRanks(initial, worldId, h + [r]);
    ArrangedFacts(CommittedEvents(h), EventRank);
    EventsGrow(h, r);
    forall e
      ensures e in merged <==> e in all
    {
      if e in r.events {
        var j :| 0 <= j < |r.events| && r.events[j] == e;
      }
    }
    ArrangedUnique(all, EventRank, merged);
  }

  lemma MergedRanksDistinct(h: History, r: CommitRequest, events: seq<Event>)
    requires StrictlySortedBy(events, EventRank) && forall e :: e in events ==> HasEvent(h, e)
    requires Distinct(EventIds(r.events)) && EventsMatch(r.events, r.command, |h| + 1)
    ensures forall i, j :: 0 <= i < j < |events + r.events| ==>
      EventRank((events + r.events)[i]) != EventRank((events + r.events)[j])
  {
    var merged := events + r.events;
    forall i, j | 0 <= i < j < |merged|
      ensures EventRank(merged[i]) != EventRank(merged[j])
    {
      if j < |events| {
        assert Before(EventRank(events[i]), EventRank(events[j]));
      } else if i < |events| {
        assert HasEvent(h, events[i]);
      } else {
        assert EventIds(r.events)[i - |events|] != EventIds(r.events)[j - |events|];
      }
    }
  }

  /** Keying the loaded records gives back the replayed record map. */
  lemma LoadedRecordsKeyed(records: RecordMap, worldId: nat)
    requires GoodRecords(records, worldId)
    ensures DistinctRecordKeys(Arranged(records.Values, RecordRank))
    ensures KeyedRecords(Arranged(records.Values, RecordRank)) == records
  {
    hide ValidRecord, KeyedRecords, Arranged;
    var listed := Arranged(records.Values, RecordRank);
    LoadedListing(records, worldId);
    KeyedValues(listed);
    var keyed := KeyedRecords(listed);
    forall k
      ensures k in keyed <==> k in records
      ensures k in records && k in keyed ==> keyed[k] == records[k]
    {
      if k in records {
        assert records[k] in keyed.Values;
      }
      if k in keyed {
        assert keyed[k] in keyed.Values;
      }
    }
  }

  lemma SavedRecordsAreGood(t: Tables, m: Manifest, initial: RecordMap, h: History)
    requires Represents(t, m, initial, h)
    ensures GoodRecords(RecordsAfter(initial, h), m.worldId)
  {
    hide RowsRepresent;
    RecordsStayGood(initial, m.worldId, h);
  }

  // ------------------------------------------------------ one commit's fate

  /** What the action table says about a command. */
  ghost predicate ActionsTell(t: Tables, m: Manifest, h: History, command: Command) {
    if command.actionId in t.actions then
      var row := t.actions[command.actionId];
      && ActionOk(command.actionId, row, m.saveId)
      && (Durable(h, command) <==> row.requestDigest == command)
      && (forall i :: 0 <= i < |h| && h[i].command == command ==> row.outcome == h[i].outcome)
    else
      m.saveId in t.heads && HeadOk(t.heads[m.saveId]) && !Durable(h, command)
  }

  lemma SaveTells(t: Tables, m: Manifest, initial: RecordMap, h: History, command: Command)
    requires Represents(t, m, initial, h)
    ensures ActionsTell(t, m, h, command)
  {
    hide ActionOk, ActionRowFor, HeadOk, GoodHistory, GoodInitial, CheckpointsRepresent, OpsRepresent, EventsRepresent,
      TranscriptsRepresent;
    HeadIsOk(t.heads, m, |h|);
    TableTells(t.actions, m.saveId, initial, m.worldId, h, command);
  }

  lemma TableTells(
    rows: map<ActionId, ActionRow>, saveId: nat, initial: RecordMap, worldId: nat, h: History, command: Command)
    requires ActionsRepresent(rows, saveId, h) && GoodHistory(initial, worldId, h)
    ensures Durable(h, command) ==> command.actionId in rows
    ensures command.actionId in rows ==>
      && ActionOk(command.actionId, rows[command.actionId], saveId)
      && (Durable(h, command) <==> rows[command.actionId].requestDigest == command)
    ensures forall i :: 0 <= i < |h| && h[i].command == command ==>
      command.actionId in rows && rows[command.actionId].outcome == h[i].outcome
  {
    hide GoodHistory, ActionOk;
    if command.actionId in rows {
      assert command.actionId in UsedActions(h);
      var i :| 0 <= i < |h| && h[i].command.actionId == command.actionId;
      ActionStored(rows, saveId, initial, worldId, h, i);
    }
    forall i | 0 <= i < |h| && h[i].command == command
      ensures command.actionId in rows && rows[command.actionId].outcome == h[i].outcome
    {
      ActionStored(rows, saveId, initial, worldId, h, i);
    }
  }

  /**
   * A durable command is answered with its original outcome, unless the backend
   * fails first; any other is committed only by taking effect.
   */
  lemma CommitOutcome(t: Tables, m: Manifest, cached: Revision, h: History, r: CommitRequest, fate: Fate)
    requires ActionsTell(t, m, h, r.command)
    requires ValidRequest(r) && r.outcome.revision <= I64_MAX
    ensures var step := CommitTx(t, m, cached, r, fate);
      && (step.reply.Ok? ==> fate != Unavailable)
      && (step.reply.Ok? && step.reply.value.AlreadyCommitted? <==> Durable(h, r.command) && fate != Unavailable)
      && (Durable(h, r.command) ==> !TakesEffect(t, m, r, fate) && step.tables == t)
      && (forall i :: 0 <= i < |h| && h[i].command == r.command && fate != Unavailable ==>
        step.reply == Ok(AlreadyCommitted(h[i].outcome)))
      && (step.reply.Ok? && step.reply.value.Committed? ==>
        TakesEffect(t, m, r, fate) && fate == Succeeds && step.reply.value.outcome == r.outcome)
      && (step.reply.Ok? && !step.reply.value.Committed? ==> !TakesEffect(t, m, r, fate))
  {
    hide ActionOk, HeadOk, KeyCollision, WithCommit;
    forall i | 0 <= i < |h| && h[i].command == r.command
      ensures Durable(h, r.command)
    {}
    hide Durable;
  }

  /** Resolving tells whether the command is durable, and with which outcome. */
  lemma ResolveTells(t: Tables, m: Manifest, cached: Revision, h: History, command: Command)
    requires ActionsTell(t, m, h, command)
    ensures ResolveTx(t, m, cached, command, false).reply.Err?
    ensures var step := ResolveTx(t, m, cached, command, true);
      && step.reply.Ok?
      && (step.reply.value.ResolvedCommitted? <==> Durable(h, command))
      && (forall i :: 0 <= i < |h| && h[i].command == command ==> step.reply.value == ResolvedCommitted(h[i].outcome))
  {
    hide ActionOk, HeadOk;
    assert forall i :: 0 <= i < |h| && h[i].command == command ==> Durable(h, command);
  }

  /** When a fresh execution's commit takes effect, and when its reply says so. */
  ghost predicate Lands(h: History, command: Command, fate: Fate) {
    |h| == command.expectedRevision && command.actionId !in UsedActions(h) && (fate == Succeeds || fate == LostAfter)
  }

  lemma LandsExactly(
    t: Tables, m: Manifest, cached: Revision, initial: RecordMap, h: History, r: CommitRequest, fate: Fate)
    requires Represents(t, m, initial, h)
    requires ValidRequest(r) && r.outcome.revision <= I64_MAX && DistinctTranscripts(r.transcripts)
    ensures TakesEffect(t, m, r, fate) <==> Lands(h, r.command, fate)
    ensures Lands(h, r.command, fate) && fate == Succeeds ==>
      CommitTx(t, m, cached, r, fate).reply == Ok(Committed(r.outcome))
    ensures Lands(h, r.command, fate) && fate == LostAfter ==>
      CommitTx(t, m, cached, r, fate).reply == Err(Backend)
  {
    hide GoodSave, KeyCollision, CheckpointsRepresent, UsedActions, WithCommit;
    HeadStands(t, m, initial, h);
    TablesActions(t, m, initial, h);
    if r.command.expectedRevision == |h| {
      assert !KeyCollision(t, r) by {
        NoKeyReused(t, m, initial, h, r);
      }
    }
  }

  /** A command is committed at the revision it expects, so once at most. */
  lemma CommittedWhereExpected(initial: RecordMap, worldId: nat, h: History, command: Command)
    requires GoodHistory(initial, worldId, h)
    ensures forall i :: 0 <= i < |h| && h[i].command == command ==> i == command.expectedRevision
    ensures Durable(h, command) <==> command.expectedRevision < |h| && h[command.expectedRevision].command == command
  {
    forall i | 0 <= i < |h|
      ensures h[i].command.expectedRevision == i
    {
      GoodHistoryAt(initial, worldId, h, i);
    }
  }

  lemma DurableAfter(h: History, r: CommitRequest, command: Command)
    ensures Durable(h + [r], command) <==> Durable(h, command) || r.command == command
  {
    var h' := h + [r];
    if Durable(h, command) {
      var i :| 0 <= i < |h| && h[i].command == command;
      assert h'[i].command == command;
    }
    assert h'[|h|] == r;
    if Durable(h', command) {
      var i :| 0 <= i < |h'| && h'[i].command == command;
      assert i < |h| ==> h[i].command == command;
    }
  }

  /** The history once the commit of an execution has had its fate. */
  ghost function Landed(h: History, r: CommitRequest, fate: Fate): History {
    if Lands(h, r.command, fate) then h + [r] else h
  }

  /** Where the history has the command afterwards. */
  ghost predicate Placed(h: History, r: CommitRequest, fate: Fate) {
    var h1, n := Landed(h, r, fate), r.command.expectedRevision;
    && (Lands(h, r.command, fate) ==> n == |h|)
    && h <= h1
    && (Durable(h1, r.command) <==> Durable(h, r.command) || Lands(h, r.command, fate))
    && (forall i :: 0 <= i < |h1| && h1[i].command == r.command ==> i == n)
    && (Durable(h1, r.command) ==> n < |h1| && h1[n].command == r.command)
  }

  lemma LandedFacts(m: Manifest, initial: RecordMap, h: History, r: CommitRequest, fate: Fate)
    requires GoodHistory(initial, m.worldId, Landed(h, r, fate))
    ensures Placed(h, r, fate)
  {
    DurableAfter(h, r, r.command);
    CommittedWhereExpected(initial, m.worldId, Landed(h, r, fate), r.command);
  }

  /** What one commit does to the history, and what its reply says about it. */
  ghost predicate Told(h: History, r: CommitRequest, fate: Fate, reply: Result<CommitReply, StoreError>) {
    var n := r.command.expectedRevision;
    && (reply.Ok? ==> fate != Unavailable)
    && (reply.Ok? && reply.value.AlreadyCommitted? <==> Durable(h, r.command) && fate != Unavailable)
    && (reply.Ok? && reply.value.AlreadyCommitted? ==>
          n < |h| && h[n].command == r.command && reply.value.existing == h[n].outcome)
    && (reply.Ok? && reply.value.Committed? <==> Lands(h, r.command, fate) && fate == Succeeds)
    && (reply.Ok? && reply.value.Committed? ==> reply.value.outcome == r.outcome)
    && (reply.Ok? && !reply.value.Committed? ==> !Lands(h, r.command, fate))
    && (Durable(h, r.command) ==> !Lands(h, r.command, fate))
  }

  lemma CommitTold(
    t: Tables, m: Manifest, cached: Revision, initial: RecordMap, h: History, r: CommitRequest, fate: Fate)
    requires Represents(t, m, initial, h)
    requires ValidRequest(r) && r.outcome.revision <= I64_MAX && DistinctTranscripts(r.transcripts)
    requires Lands(h, r.command, fate) ==> WellFormed(RecordsAfter(initial, h), m.worldId, UsedEvents(h), |h|, r)
    ensures var step := CommitTx(t, m, cached, r, fate);
      && Represents(step.tables, m, initial, Landed(h, r, fate))
      && Told(h, r, fate, step.reply)
  {
    assert Lands(h, r.command, fate) ==> fate == Succeeds || fate == LostAfter;
    hide CommitTx, TakesEffect, Lands, WellFormed, RowsRepresent, Validate, ActionsTell, RecordsAfter;
    SaveTells(t, m, initial, h, r.command);
    CommitOutcome(t, m, cached, h, r, fate);
    LandsExactly(t, m, cached, initial, h, r, fate);
    CommitEffect(t, m, cached, r, fate);
    if Lands(h, r.command, fate) {
      CommitKeepsHistory(t, m, cached, r, fate, initial, h);
    }
    CommittedWhereExpected(initial, m.worldId, h, r.command);
  }

  lemma DurableContinues(t: Tables, m: Manifest, initial: RecordMap, h: History, later: History, command: Command)
    requires Continues(t, m, initial, h, later, command.actionId)
    ensures Durable(later, command) <==> Durable(h, command)
  {
    hide Represents;
    if Durable(later, command) {
      var i :| 0 <= i < |later| && later[i].command == command;
      assert i < |h| && h[i].command == command;
    }
    if Durable(h, command) {
      var i :| 0 <= i < |h| && h[i].command == command;
      assert later[i].command == command;
    }
  }

  /**
   * The request of an execution on any records is valid; at the head it fits
   * the durable history if the execution's contract also holds of its records.
   */
  lemma ExecutedRequest(
    t: Tables, m: Manifest, initial: RecordMap, h: History, prior: RecordMap, command: Command, c: ChangeSet)
    requires Represents(t, m, initial, h)
    requires ExecutionContract(prior, m.worldId, UsedEvents(h), command, c)
    ensures Expressible(c) && ValidRequest(Assemble(command, c)) && Assemble(command, c).outcome.revision <= I64_MAX
    ensures DistinctTranscripts(Assemble(command, c).transcripts)
    ensures command.expectedRevision == |h| ==>
      ExecutionContract(RecordsAfter(initial, h), m.worldId, UsedEvents(h), command, c) ==>
      WellFormed(RecordsAfter(initial, h), m.worldId, UsedEvents(h), |h|, Assemble(command, c))
      && RecordsAfter(initial, h + [Assemble(command, c)]) == Applied(RecordsAfter(initial, h), c)
    ensures c.revision == command.expectedRevision + 1
    ensures forall i :: 0 <= i < |c.events| ==> c.events[i].id !in UsedEvents(h)
  {
    hide WellFormed, Applied, Validate, RowsRepresent, KeyCollision, GoodHistory;
    ContractIsAccepted(prior, m.worldId, UsedEvents(h), command, c);
    UpsertKeysDistinct(c);
    TranscriptsOfDistinct(c.upserts);
    HeadOfHistory(t, m, initial, h);
    if command.expectedRevision == |h|
      && ExecutionContract(RecordsAfter(initial, h), m.worldId, UsedEvents(h), command, c) {
      RecordsStayGood(initial, m.worldId, h);
      RequestAppliesChanges(RecordsAfter(initial, h), m.worldId, UsedEvents(h), command, c);
      assert (h + [Assemble(command, c)])[..|h|] == h;
    }
  }

  lemma HeadOfHistory(t: Tables, m: Manifest, initial: RecordMap, h: History)
    requires Represents(t, m, initial, h)
    ensures GoodSave(m, initial, h)
    ensures m.saveId in t.heads && t.heads[m.saveId].revision == |h|
  {}

  // ------------------------------------------- the paths without a reload

  ghost predicate SelfKeyed(records: RecordMap) {
    forall k :: k in records ==> KeyOf(records[k]) == k
  }

  /** When a world executed at revision `n` and kept as it is equals what loading `h` returns. */
  ghost predicate KeptFits(
    records: RecordMap, added: seq<Event>, events: seq<Event>, initial: RecordMap, n: Revision, h: History)
  {
    |h| == n + 1 && added == [] && AllEvents(events, h) && records == RecordsAfter(initial, h)
  }

  /**
   * An executed world that is kept without committing: what it merges is fresh,
   * so it matches a load only if it merges nothing, the save is exactly one
   * commit ahead of what it was executed on, that commit gave the same records,
   * and no event is missing.
   */
  lemma KeptAgrees(
    t: Tables, m: Manifest, initial: RecordMap, h: History, records: RecordMap, n: Revision, events: seq<Event>,
    added: seq<Event>)
    requires Represents(t, m, initial, h)
    requires SelfKeyed(records) && SortedBy(events, EventRank)
    requires forall i :: 0 <= i < |added| ==> added[i].id !in UsedEvents(h)
    ensures MatchesLoad(t, m, records, n + 1, Sort(WithNew(events, added), EventRank)) <==>
      KeptFits(records, added, events, initial, n, h)
  {
    LoadIsFold(t, m, initial, h);
    SavedRecordsAreGood(t, m, initial, h);
    SavedHistoryIsGood(t, m, initial, h);
    hide Represents, LoadResult, RecordsAfter, Sort, WithNew, CommittedEvents, Arranged, GoodHistory, GoodRecords,
      UsedEvents;
    if added == [] {
      SortedStays(events);
    } else {
      KeptEventDiffers(initial, m.worldId, h, events, added);
    }
    SameListing(records, RecordsAfter(initial, h), m.worldId);
  }

  /** The same for a world whose request could not even be built. */
  lemma KeptUnsent(
    t: Tables, m: Manifest, initial: RecordMap, h: History, records: RecordMap, n: Revision, events: seq<Event>)
    requires Represents(t, m, initial, h)
    requires SelfKeyed(records) && SortedBy(events, EventRank)
    ensures MatchesLoad(t, m, records, n + 1, events) <==> KeptFits(records, [], events, initial, n, h)
    ensures KeptFits(records, [], events, initial, n, h) ==> IsWorldOf(records, n + 1, events, initial, h)
  {
    hide Represents, MatchesLoad, SelfKeyed;
    SortedStays(events);
    KeptAgrees(t, m, initial, h, records, n, events, []);
  }

  lemma SortedStays(events: seq<Event>)
    requires SortedBy(events, EventRank)
    ensures Sort(WithNew(events, []), EventRank) == events
  {
    SortOfSorted(events, EventRank);
  }

  lemma KeptEventDiffers(initial: RecordMap, worldId: nat, h: History, events: seq<Event>, added: seq<Event>)
    requires GoodHistory(initial, worldId, h) && added != [] && added[0].id !in UsedEvents(h)
    ensures Sort(WithNew(events, added), EventRank) != Arranged(CommittedEvents(h), EventRank)
  {
    var merged := WithNew(events, added);
    hide GoodHistory, UsedEvents, Arranged, Sort, WithNew;
    MergeIsUnion(events, added);
    assert ListsId(added, added[0].id);
    var i :| 0 <= i < |merged| && merged[i].id == added[0].id;
    SortMembers(merged, EventRank);
    assert merged[i] in Sort(merged, EventRank);
    CommittedEventRanks(initial, worldId, h);
    ArrangedFacts(CommittedEvents(h), EventRank);
    ListedIdsUsed(h, Arranged(CommittedEvents(h), EventRank), added[0].id);
  }

  /** Two self-keyed record maps with the same listing are equal. */
  lemma SameListing(a: RecordMap, b: RecordMap, worldId: nat)
    requires SelfKeyed(a) && GoodRecords(b, worldId)
    ensures Arranged(a.Values, RecordRank) == Arranged(b.Values, RecordRank) <==> a == b
  {
    hide ValidRecord;
    if Arranged(a.Values, RecordRank) == Arranged(b.Values, RecordRank) {
      ListingValues(a);
      ListingValues(b);
      hide Arranged;
      assert forall r :: r in a.Values <==> r in b.Values;
      forall k
        ensures k in a ==> k in b && b[k] == a[k]
        ensures k in b ==> k in a
      {
        assert k in a ==> a[k] in b.Values;
        assert k in b ==> b[k] in a.Values;
      }
    }
  }

  lemma ListingValues(records: RecordMap)
    requires SelfKeyed(records)
    ensures forall r :: r in Arranged(records.Values, RecordRank) <==> r in records.Values
  {
    forall x, y | x in records.Values && y in records.Values && RecordRank(x) == RecordRank(y)
      ensures x == y
    {
      assert KeyOf(x) == KeyOf(y);
    }
    ArrangedFacts(records.Values, RecordRank);
  }

  /** Over a complete event list, nothing is missing exactly when the commit made meanwhile had no event. */
  lemma NothingMissed(initial: RecordMap, worldId: nat, held: History, h: History, events: seq<Event>)
    requires GoodHistory(initial, worldId, h) && held <= h && |h| == |held| + 1 && AllEvents(events, held)
    ensures AllEvents(events, h) <==> h[|held|].events == []
  {
    var r := h[|held|];
    assert h[..|held|] == held && h == held + [r];
    GoodHistoryPrefix(initial, worldId, h, |held|);
    GoodHistoryAt(initial, worldId, h, |held|);
    CommittedEventRanks(initial, worldId, held);
    CommittedEventRanks(initial, worldId, h);
    ArrangedFacts(CommittedEvents(held), EventRank);
    ArrangedFacts(CommittedEvents(h), EventRank);
    EventsGrow(held, r);
    hide Arranged, GoodHistory;
    if r.events != [] {
      assert r.events[0] in CommittedEvents(h);
      assert r.events[0] !in events by {
        assert r.events[0].revision == |held| + 1;
      }
    } else {
      assert CommittedEvents(h) == CommittedEvents(held);
    }
  }

  /** Over a complete event list, what a kept world must fit is told by the one commit made meanwhile. */
  lemma KeptFitsComplete(
    t: Tables, m: Manifest, initial: RecordMap, held: History, h: History, records: RecordMap, events: seq<Event>,
    added: seq<Event>)
    requires Represents(t, m, initial, h) && held <= h && AllEvents(events, held)
    ensures KeptFits(records, added, events, initial, |held|, h) <==>
      |h| == |held| + 1 && added == [] && h[|held|].events == [] && records == RecordsAfter(initial, h)
  {
    SavedHistoryIsGood(t, m, initial, h);
    hide Represents, AllEvents, GoodHistory, RecordsAfter;
    if |h| == |held| + 1 {
      NothingMissed(initial, m.worldId, held, h, events);
    }
  }

  // ------------------------------------------------ what a command leads to

  /** `from_execution` succeeds. */
  ghost predicate Builds(command: Command, c: ChangeSet) {
    Expressible(c) && ValidRequest(Assemble(command, c))
  }

  /**
   * What executing a command on a world promises: the next revision, and, for
   * whatever can be sent to the store, the execution contract, its effect, and
   * event identifiers new to the save and to the world.
   */
  ghost predicate Promised(
    records: RecordMap, revision: Revision, events: seq<Event>, worldId: nat, h: History, command: Command,
    execution: Execution)
  {
    match execution
    case Refused(leftRecords, _, _) => SelfKeyed(leftRecords)
    case Executed(c, newRecords, _) =>
      && command.expectedRevision == revision && c.revision == revision + 1
      && SelfKeyed(newRecords)
      && (Builds(command, c) ==>
            && ExecutionContract(records, worldId, UsedEvents(h), command, c) && newRecords == Applied(records, c)
            && forall i :: 0 <= i < |c.events| ==> !ListsId(events, c.events[i].id))
  }

  /** Every record the changes delete is in the save. */
  ghost predicate DeletesSaved(initial: RecordMap, h: History, c: ChangeSet) {
    forall k :: k in c.deletes ==> k in RecordsAfter(initial, h)
  }

  /**
   * The executed world is kept although nothing was committed: no request could be built, or the
   * command was durable.
   */
  ghost predicate Keeps(h: History, command: Command, execution: Execution, fate: Fate) {
    execution.Executed? && (Builds(command, execution.changes) ==> Durable(h, command) && fate != Unavailable)
  }

  /** The events merged on the way out of such a path. */
  ghost function MergedBy(command: Command, execution: Execution): seq<Event>
    requires execution.Executed?
  {
    if Builds(command, execution.changes) then execution.changes.events else []
  }

  /** The command is committed now. */
  ghost predicate Commits(h: History, command: Command, execution: Execution, fate: Fate) {
    execution.Executed? && Builds(command, execution.changes) && Lands(h, command, fate)
  }

  /** The call succeeds. */
  ghost predicate Reported(
    h: History, command: Command, execution: Execution, fate: Fate, available: bool, health: Recovery)
  {
    && execution.Executed? && Builds(command, execution.changes)
    && (Durable(h, command) || Lands(h, command, fate))
    && ((if Durable(h, command) then fate != Unavailable else fate == Succeeds) || (available && health == Recovers))
  }

  lemma PromisedFresh(
    records: RecordMap, revision: Revision, events: seq<Event>, worldId: nat, h: History, command: Command,
    execution: Execution)
    requires Promised(records, revision, events, worldId, h, command, execution)
    ensures execution.Executed? && Builds(command, execution.changes) ==>
      forall i :: 0 <= i < |execution.changes.events| ==> execution.changes.events[i].id !in UsedEvents(h)
  {
    hide Builds, UsedEvents;
  }

  lemma ReportedBuilds(
    h: History, command: Command, execution: Execution, fate: Fate, available: bool, health: Recovery)
    requires Reported(h, command, execution, fate, available, health)
    ensures execution.Executed? && Builds(command, execution.changes)
  {}

  // -------------------------------------------------- worlds off the history

  /** Changes made on other records keep the contract over the save's exactly when they delete only what it holds. */
  lemma ContractMoves(
    t: Tables, m: Manifest, initial: RecordMap, h: History, prior: RecordMap, command: Command, c: ChangeSet)
    requires Represents(t, m, initial, h) && SelfKeyed(prior)
    requires ExecutionContract(prior, m.worldId, UsedEvents(h), command, c)
    ensures ExecutionContract(RecordsAfter(initial, h), m.worldId, UsedEvents(h), command, c) <==>
      DeletesSaved(initial, h, c)
  {
    SavedRecordsAreGood(t, m, initial, h);
    hide Represents, RecordsAfter, UsedEvents, ValidRecord, ExecutionContract;
    SoundMoves(prior, RecordsAfter(initial, h), m.worldId, UsedEvents(h), command, c);
  }

  lemma SoundMoves(
    prior: RecordMap, saved: RecordMap, worldId: nat, used: set<EventId>, command: Command, c: ChangeSet)
    requires SelfKeyed(prior) && SelfKeyed(saved)
    requires ExecutionContract(prior, worldId, used, command, c)
    ensures ExecutionContract(saved, worldId, used, command, c) <==> forall k :: k in c.deletes ==> k in saved
  {
    SameKind(prior, saved);
    hide SelfKeyed, DistinctMutations, ValidUpserts, KeyOf, Distinct, EventIds;
  }

  lemma SameKind(prior: RecordMap, saved: RecordMap)
    requires SelfKeyed(prior) && SelfKeyed(saved)
    ensures forall k :: k in prior && prior[k].Other? && k in saved ==> saved[k].Other?
  {}

  /**
   * What another handle's commit may let through: when the head has come to the
   * revision of a world that does not stand on the history, its next execution
   * is committed all the same. The save still loads, and holds the history with
   * this commit, if and only if every record deleted is one it held.
   */
  lemma CommitLoads(
    t: Tables, m: Manifest, cached: Revision, initial: RecordMap, h: History, prior: RecordMap, command: Command,
    c: ChangeSet, fate: Fate)
    requires Represents(t, m, initial, h) && SelfKeyed(prior)
    requires ExecutionContract(prior, m.worldId, UsedEvents(h), command, c) && Lands(h, command, fate)
    ensures var r, t' := Assemble(command, c), CommitTx(t, m, cached, Assemble(command, c), fate).tables;
      && t' == WithCommit(t, m, r)
      && (LoadResult(t', m).Some? <==> DeletesSaved(initial, h, c))
      && (Represents(t', m, initial, h + [r]) <==> DeletesSaved(initial, h, c))
  {
    var r := Assemble(command, c);
    var t' := CommitTx(t, m, cached, r, fate).tables;
    assert command.actionId !in UsedActions(h) && command.expectedRevision == |h|;
    hide Represents, RowsRepresent, CommitTx, ExecutionContract, WellFormed, RecordsAfter, Validate, Lands,
      TakesEffect, UsedEvents, UsedActions, LoadResult, WithCommit;
    ContractMoves(t, m, initial, h, prior, command, c);
    ExecutedRequest(t, m, initial, h, prior, command, c);
    LandsExactly(t, m, cached, initial, h, r, fate);
    CommitEffect(t, m, cached, r, fate);
    if DeletesSaved(initial, h, c) {
      CommitTold(t, m, cached, initial, h, r, fate);
      LoadIsFold(t', m, initial, h + [r]);
    } else {
      var k :| k in c.deletes && k !in RecordsAfter(initial, h);
      UnsavedDelete(t, m, initial, h, command, c, k);
      if Represents(t', m, initial, h + [r]) {
        LoadIsFold(t', m, initial, h + [r]);
      }
    }
  }

  lemma CommitLeaves(t: Tables, m: Manifest, initial: RecordMap, h: History, r: CommitRequest)
    requires Represents(t, m, initial, h) && r.command.expectedRevision == |h|
    requires ValidRequest(r) && DistinctTranscripts(r.transcripts) && r.command.actionId !in UsedActions(h)
    ensures var t' := WithCommit(t, m, r);
      && GoodSave(m, initial, h) && CheckpointsRepresent(t'.checkpoints, m.saveId, initial, h)
      && OpsRepresent(t'.recordOps, m.saveId, h + [r])
  {
    hide GoodSave, CheckpointsRepresent, OpsRepresent, EventsRepresent, TranscriptsRepresent, ActionsRepresent,
      Validate, UsedActions;
    RequestRowsExtend(t, m, initial, h, r);
  }

  lemma UnsavedDelete(
    t: Tables, m: Manifest, initial: RecordMap, h: History, command: Command, c: ChangeSet, k: RecordKey)
    requires Represents(t, m, initial, h) && command.expectedRevision == |h| && command.actionId !in UsedActions(h)
    requires Expressible(c) && ValidRequest(Assemble(command, c))
    requires DistinctTranscripts(Assemble(command, c).transcripts)
    requires k in c.deletes && k !in RecordsAfter(initial, h)
    ensures LoadResult(WithCommit(t, m, Assemble(command, c)), m).None?
  {
    var r := Assemble(command, c);
    CommitLeaves(t, m, initial, h, r);
    hide Represents, Expressible, Validate, OpsOf, WithCommit, GoodSave, RecordsAfter, LoadResult, UsedActions,
      CheckpointsRepresent, OpsRepresent, DistinctTranscripts, DistinctKeys;
    var i := DeleteNumbered(c, k);
    MissingDeleteStopsLoad(WithCommit(t, m, r), m, initial, h, r, i);
  }

  lemma DeleteNumbered(c: ChangeSet, k: RecordKey) returns (i: nat)
    requires Expressible(c) && k in c.deletes
    ensures DistinctKeys(OpsOf(c)) && i < |OpsOf(c)| && OpsOf(c)[i].mutation == Delete(k)
  {
    var j :| 0 <= j < |c.deletes| && c.deletes[j] == k;
    DeleteListed(c, j);
    OpsFacts(c);
    hide Expressible, OpsOf, DistinctKeys, Mutations;
    i :| 0 <= i < |OpsOf(c)| && OpsOf(c)[i].mutation == Delete(k);
  }

  lemma LagsGrow(events: seq<Event>, h: History, later: History)
    requires h <= later
    ensures Lags(events, h) ==> Lags(events, later)
  {
    hide Lags;
    if Lags(events, h) {
      LagsOn(events, h, later);
    }
  }

  lemma SavedOwn(t: Tables, m: Manifest, initial: RecordMap, h: History, n: nat, events: seq<Event>)
    requires Represents(t, m, initial, h)
    ensures n < |h| && Lists(events, h) ==> ListsOwn(events, h[n].events)
  {
    hide GoodHistory, RowsRepresent, Lists, ListsOwn;
    if n < |h| && Lists(events, h) {
      ListedOwn(initial, m.worldId, h, n, events);
    }
  }

  // ---------------------------------------------------------------- spawns

  /** Event kind 0 stands for every kind but a spawn; kind `n + 1` announces character `n`. */
  function SpawnedBy(e: Event): Option<ActorId> {
    if e.kind == 0 then None else Some(e.kind - 1)
  }

  /** The first of some events that announces a character. */
  ghost predicate FirstSpawn(own: seq<Event>, e: Event) {
    && e in own && SpawnedBy(e).Some?
    && (forall o :: o in own && SpawnedBy(o).Some? ==> !Before(EventRank(o), EventRank(e)))
  }

  ghost predicate NoneEarlier(events: seq<Event>, ids: seq<EventId>, e: Event) {
    forall o :: o in events && o.id in ids && SpawnedBy(o).Some? ==> !Before(EventRank(o), EventRank(e))
  }

  /** The character announced first among the events with the given identifiers. */
  method FindSpawn(events: seq<Event>, ids: seq<EventId>) returns (found: Option<ActorId>)
    ensures found.Some? <==> exists e :: e in events && e.id in ids && SpawnedBy(e).Some?
    ensures found.Some? && SortedBy(events, EventRank) ==>
      exists e :: e in events && e.id in ids && SpawnedBy(e) == found && NoneEarlier(events, ids, e)
  {
    for i := 0 to |events|
      invariant forall j :: 0 <= j < i && events[j].id in ids ==> SpawnedBy(events[j]).None?
    {
      if events[i].id in ids && SpawnedBy(events[i]).Some? {
        forall o | o in events && o.id in ids && SpawnedBy(o).Some? && SortedBy(events, EventRank)
          ensures !Before(EventRank(o), EventRank(events[i]))
        {
          var j :| 0 <= j < |events| && events[j] == o;
          assert j > i ==> !Before(EventRank(o), EventRank(events[i]));
        }
        assert events[i] in events;
        assert SortedBy(events, EventRank) ==> NoneEarlier(events, ids, events[i]);
        return SpawnedBy(events[i]);
      }
    }
    return None;
  }

  lemma SavedHistoryIsGood(t: Tables, m: Manifest, initial: RecordMap, h: History)
    requires Represents(t, m, initial, h)
    ensures GoodHistory(initial, m.worldId, h)
  {}

  /** Of the listed events, those with an action's event identifiers are exactly its own. */
  ghost predicate ListsOwn(events: seq<Event>, own: seq<Event>) {
    && (forall e :: e in own ==> e in events && e.id in EventIds(own))
    && (forall e :: e in events && e.id in EventIds(own) ==> e in own)
  }

  lemma OwnIds(own: seq<Event>)
    ensures forall e :: e in own ==> e.id in EventIds(own)
  {
    forall e | e in own
      ensures e.id in EventIds(own)
    {
      var j :| 0 <= j < |own| && own[j] == e;
      assert EventIds(own)[j] == e.id;
    }
  }

  lemma ListedOwn(initial: RecordMap, worldId: nat, h: History, i: nat, events: seq<Event>)
    requires GoodHistory(initial, worldId, h) && i < |h| && Lists(events, h)
    ensures ListsOwn(events, h[i].events)
  {
    hide GoodHistory;
    CommittedEventRanks(initial, worldId, h);
    OwnIds(h[i].events);
    forall e | e in events && e.id in EventIds(h[i].events)
      ensures e in h[i].events
    {
      var j :| 0 <= j < |h[i].events| && h[i].events[j].id == e.id;
      assert h[i].events[j] in CommittedEvents(h);
    }
  }

  lemma MergedOwn(events: seq<Event>, own: seq<Event>)
    requires forall i :: 0 <= i < |own| ==> !ListsId(events, own[i].id)
    ensures ListsOwn(Sort(events + own, EventRank), own)
  {
    SortMembers(events + own, EventRank);
    OwnIds(own);
    hide Sort;
    forall i, j | 0 <= i < |own| && 0 <= j < |events|
      ensures events[j].id != own[i].id
    {
      assert !ListsId(events, own[i].id);
    }
  }

  lemma OutcomeLists(initial: RecordMap, worldId: nat, h: History, i: nat)
    requires GoodHistory(initial, worldId, h) && i < |h|
    ensures h[i].outcome.eventIds == EventIds(h[i].events)
  {
    GoodHistoryAt(initial, worldId, h, i);
  }

  /** Some listed event among an action's own announces a character. */
  ghost predicate Announces(events: seq<Event>, own: seq<Event>) {
    exists e :: e in events && e.id in EventIds(own) && SpawnedBy(e).Some?
  }

  lemma OwnAnnounced(events: seq<Event>, own: seq<Event>)
    requires ListsOwn(events, own)
    ensures Announces(events, own) <==> exists e :: e in own && SpawnedBy(e).Some?
  {}

  /** What a kept world merges announces nothing of the durable action. */
  lemma KeptAnnounces(
    initial: RecordMap, worldId: nat, h: History, n: nat, before: seq<Event>, added: seq<Event>, events: seq<Event>)
    requires GoodHistory(initial, worldId, h) && n < |h|
    requires forall i :: 0 <= i < |added| ==> added[i].id !in UsedEvents(h)
    requires events == Sort(WithNew(before, added), EventRank)
    ensures Announces(events, h[n].events) <==> Announces(before, h[n].events)
  {
    var own := h[n].events;
    MergeIsUnion(before, added);
    SortMembers(WithNew(before, added), EventRank);
    hide Sort, WithNew;
    assert h[..|h|] == h;
    GoodHistoryAt(initial, worldId, h, n);
    forall j | 0 <= j < |own|
      ensures own[j].id in UsedEvents(h)
    {
      assert own[j] in own;
      EventIsUsed(h, own[j], |h|);
    }
    hide UsedEvents;
    forall e | e in added
      ensures e.id !in EventIds(own)
    {}
  }

  /** Every listed event was committed before the revision the command expects. */
  ghost predicate ListedBefore(events: seq<Event>, h: History, command: Command) {
    command.expectedRevision <= |h| && Lags(events, h[..command.expectedRevision])
  }

  /** A world that lists only events committed before the action lists none of its own. */
  lemma EarlierAnnounceNothing(initial: RecordMap, worldId: nat, h: History, n: nat, before: seq<Event>)
    requires GoodHistory(initial, worldId, h) && n < |h| && Lags(before, h[..n])
    ensures !Announces(before, h[n].events)
  {
    var own := h[n].events;
    GoodHistoryAt(initial, worldId, h, n);
    assert h[..n][..n] == h[..n];
    forall e | e in before
      ensures e.id in UsedEvents(h[..n])
    {
      EventIsUsed(h[..n], e, n);
    }
    forall j | 0 <= j < |own|
      ensures own[j].id !in UsedEvents(h[..n])
    {}
  }

  /** The same, told of one action's events. */
  method FindAnnounced(events: seq<Event>, ids: seq<EventId>, ghost own: seq<Event>) returns (found: Option<ActorId>)
    requires ids == EventIds(own) && SortedBy(events, EventRank)
    ensures found.Some? <==> Announces(events, own)
    ensures found.Some? && ListsOwn(events, own) ==> exists e :: FirstSpawn(own, e) && SpawnedBy(e) == found
  {
    found := FindSpawn(events, ids);
    if found.Some? && ListsOwn(events, own) {
      ghost var e :| e in events && e.id in ids && SpawnedBy(e) == found && NoneEarlier(events, ids, e);
      assert FirstSpawn(own, e);
    }
  }

  // ------------------------------------------------------------- the class

  class RuntimeWorld {
    const store: SaveStore
    var records: RecordMap
    var revision: Revision
    var session: Session
    var events: seq<Event>

    constructor (store: SaveStore, records: RecordMap, revision: Revision, session: Session, events: seq<Event>)
      ensures this.store == store && this.records == records && this.revision == revision
      ensures this.session == session && this.events == events
    {
      this.store, this.records, this.revision, this.session, this.events := store, records, revision, session, events;
    }

    ghost predicate Valid()
      reads this
    {
      SelfKeyed(records) && SortedBy(events, EventRank)
    }

    ghost predicate Holds(initial: RecordMap, h: History)
      reads this
    {
      IsWorldOf(records, revision, events, initial, h)
    }

    /** As `Holds`, except that events may be missing. */
    ghost predicate Tracks(initial: RecordMap, h: History)
      reads this
    {
      records == RecordsAfter(initial, h) && revision == |h| && Lags(events, h)
    }

    ghost predicate AgreesWithSave()
      reads this, store, store.db
    {
      MatchesLoad(store.db.tables, store.manifest, records, revision, events)
    }

    /** `recover`: replace the world by what the save holds. */
    method Recover(params: Session, health: Recovery, ghost initial: RecordMap, ghost h: History)
      returns (reply: Result<(), RuntimeError>)
      requires Represents(store.db.tables, store.manifest, initial, h)
      modifies this, store`revision
      ensures reply.Ok? <==> health == Recovers
      ensures reply.Ok? ==> Valid() && Holds(initial, h) && session == params
      ensures reply.Err? ==> unchanged(this)
    {
      hide RecordsAfter, LoadResult, Represents, Arranged, KeyedRecords, GoodRecords, CommittedEvents,
        RecordTranscripts;
      if health == ReadFails {
        return Err(StoreFailed(Backend));
      }
      LoadIsFold(store.db.tables, store.manifest, initial, h);
      SavedRecordsAreGood(store.db.tables, store.manifest, initial, h);
      LoadedRecordsKeyed(RecordsAfter(initial, h), store.manifest.worldId);
      var loaded := store.Load();
      assert loaded.value == SavedState(store.manifest, initial, h);
      if health == RebuildFails {
        return Err(WorldRefused);
      }
      records := KeyedRecords(loaded.value.records);
      revision := loaded.value.revision;
      events := loaded.value.events;
      session := params;
      HeldIsValid(store.db.tables, store.manifest, records, revision, events, initial, h);
      return Ok(());
    }

    /** Other handles' transactions between two of this one's. */
    method Elsewhere(meanwhile: Tables -> Tables, mine: ActionId, ghost initial: RecordMap, ghost h: History)
      returns (ghost later: History)
      requires Represents(store.db.tables, store.manifest, initial, h)
      requires Interference(meanwhile, store.manifest, initial, mine)
      modifies store.db`tables
      ensures Continues(store.db.tables, store.manifest, initial, h, later, mine)
      ensures Represents(store.db.tables, store.manifest, initial, later) && h <= later
    {
      hide Represents;
      later :| Continues(meanwhile(store.db.tables), store.manifest, initial, h, later, mine);
      store.db.tables := meanwhile(store.db.tables);
    }

    /** Merge an execution's events into the sorted event list, skipping known identifiers. */
    method AdoptEvents(added: seq<Event>)
      modifies this`events
      ensures events == Sort(WithNew(old(events), added), EventRank)
    {
      ghost var before := events;
      for i := 0 to |added|
        invariant events == WithNew(before, added[..i])
      {
        assert added[..i + 1][..i] == added[..i] && added[..i + 1][i] == added[i];
        var known, listed := false, events;
        for j := 0 to |listed|
          invariant events == listed && (known <==> ListsId(listed[..j], added[i].id))
        {
          assert listed[..j + 1] == listed[..j] + [listed[j]];
          GrownIds(listed[..j], listed[j], added[i].id);
          known := known || listed[j].id == added[i].id;
        }
        assert listed[..|listed|] == listed;
        if !known {
          events := events + [added[i]];
        }
      }
      assert added[..|added|] == added;
      events := Sort(events, EventRank);
    }

    /** `recover`, after other handles had time to commit. */
    method Reload(
      params: Session, health: Recovery, meanwhile: Tables -> Tables, mine: ActionId, ghost initial: RecordMap,
      ghost h: History)
      returns (reply: Result<(), RuntimeError>, ghost later: History)
      requires Represents(store.db.tables, store.manifest, initial, h)
      requires Interference(meanwhile, store.manifest, initial, mine)
      modifies this, store`revision, store.db`tables
      ensures Continues(store.db.tables, store.manifest, initial, h, later, mine)
      ensures Represents(store.db.tables, store.manifest, initial, later) && h <= later
      ensures reply.Ok? <==> health == Recovers
      ensures reply.Ok? ==> Valid() && Holds(initial, later) && AgreesWithSave() && session == params
      ensures reply.Err? ==> unchanged(this)
    {
      hide Represents, LoadResult, IsWorldOf;
      later := Elsewhere(meanwhile, mine, initial, h);
      reply := Recover(params, health, initial, later);
      if reply.Ok? {
        WorldMatchesLoad(store.db.tables, store.manifest, records, revision, events, initial, later);
      }
    }

    /** The `Committed` arm: keep the executed world and merge its events. */
    method KeepExecuted(command: Command, changes: ChangeSet, ghost initial: RecordMap, ghost h: History)
      requires Represents(store.db.tables, store.manifest, initial, h + [Assemble(command, changes)])
      requires revision == |h| + 1
      requires forall i :: 0 <= i < |changes.events| ==> !ListsId(events, changes.events[i].id)
      modifies this`events
      ensures SortedBy(events, EventRank) && ListsOwn(events, changes.events)
      ensures Lags(old(events), h) ==> Lags(events, h + [Assemble(command, changes)])
      ensures AllEvents(old(events), h) && records == RecordsAfter(initial, h + [Assemble(command, changes)]) ==>
        Holds(initial, h + [Assemble(command, changes)]) && AgreesWithSave()
    {
      hide RecordsAfter, LoadResult, RowsRepresent, Lags, AllEvents, OpsOf, TranscriptsOf, Sort, ListsId, ListsOwn,
        SortedBy;
      ghost var worldId := store.manifest.worldId;
      ghost var r := Assemble(command, changes);
      assert (h + [r])[..|h|] == h;
      GoodHistoryAt(initial, worldId, h + [r], |h|);
      FreshMerge(events, changes.events);
      MergedOwn(events, changes.events);
      SortCorrect(events + changes.events, EventRank);
      if AllEvents(events, h) {
        AllEventsLag(initial, worldId, h, events);
      }
      if Lags(events, h) {
        MergedEvents(initial, worldId, h, r, events);
      }
      AdoptEvents(changes.events);
      if AllEvents(old(events), h) && records == RecordsAfter(initial, h + [r]) {
        WorldMatchesLoad(store.db.tables, store.manifest, records, revision, events, initial, h + [r]);
      }
    }

    /** The `AlreadyCommitted` arm: the executed world and its events are kept although nothing was committed. */
    method KeepRepeated(changes: ChangeSet, ghost initial: RecordMap, ghost n: Revision, ghost h: History)
      requires Represents(store.db.tables, store.manifest, initial, h)
      requires Valid() && revision == n + 1
      requires forall i :: 0 <= i < |changes.events| ==> changes.events[i].id !in UsedEvents(h)
      modifies this`events
      ensures Valid() && events == Sort(WithNew(old(events), changes.events), EventRank)
      ensures AgreesWithSave() <==> KeptFits(records, changes.events, old(events), initial, n, h)
      ensures AgreesWithSave() ==> Holds(initial, h)
    {
      hide Represents, MatchesLoad, WithNew, Sort, SelfKeyed, AllEvents, RecordsAfter, UsedEvents;
      KeptAgrees(store.db.tables, store.manifest, initial, h, records, n, events, changes.events);
      SortedStays(events);
      SortCorrect(WithNew(events, changes.events), EventRank);
      AdoptEvents(changes.events);
    }

    /** The error arm: ask whether the action is durable, then reload either way. */
    method ResolveThenReload(
      command: Command, ghost outcome: CommittedAction, cause: StoreError, candidate: Session, committed: Session,
      available: bool, health: Recovery,
      beforeResolve: Tables -> Tables, beforeReload: Tables -> Tables, ghost initial: RecordMap, ghost h: History)
      returns (reply: Result<CommittedAction, RuntimeError>, ghost after: History, ghost recovered: bool)
      requires Represents(store.db.tables, store.manifest, initial, h)
      requires Interference(beforeResolve, store.manifest, initial, command.actionId)
      requires Interference(beforeReload, store.manifest, initial, command.actionId)
      requires forall i :: 0 <= i < |h| && h[i].command == command ==> h[i].outcome == outcome
      modifies this, store`revision, store.db`tables
      ensures Represents(store.db.tables, store.manifest, initial, after) && h <= after
      ensures Durable(after, command) <==> Durable(h, command)
      ensures recovered <==> health == Recovers
      ensures recovered ==> Valid() && Holds(initial, after) && AgreesWithSave()
      ensures recovered ==> Lists(events, after)
      ensures !recovered ==> unchanged(this)
      ensures reply.Ok? <==> recovered && available && Durable(h, command)
      ensures reply.Err? && recovered ==> reply.error == StoreFailed(cause)
      ensures reply.Ok? ==> reply.value == outcome && session == candidate
      ensures reply.Err? && recovered ==> session == committed
    {
      hide Represents, LoadResult, IsWorldOf, ResolveTx, Continues, Interference, MatchesLoad, ActionsTell, Lists;
      ghost var resolved := Elsewhere(beforeResolve, command.actionId, initial, h);
      DurableContinues(store.db.tables, store.manifest, initial, h, resolved, command);
      SaveTells(store.db.tables, store.manifest, initial, resolved, command);
      ResolveTells(store.db.tables, store.manifest, store.revision, resolved, command);
      var resolution := store.ResolveAction(command, available);
      var durable := resolution.Ok? && resolution.value.ResolvedCommitted?;
      var reload;
      reload, after := Reload(if durable then candidate
        else committed, health, beforeReload, command.actionId, initial, resolved);
      DurableContinues(store.db.tables, store.manifest, initial, resolved, after, command);
      recovered := reload.Ok?;
      SavedHistoryIsGood(store.db.tables, store.manifest, initial, after);
      if recovered {
        WorldListed(initial, store.manifest.worldId, after, records, revision, events);
      }
      if reload.Err? {
        return Err(reload.error), after, recovered;
      }
      if durable {
        return Ok(resolution.value.resolved), after, recovered;
      }
      return Err(StoreFailed(cause)), after, recovered;
    }

    /** The commit itself. */
    method Send(
      command: Command, changes: ChangeSet, request: CommitRequest, fate: Fate, ghost prior: RecordMap,
      ghost initial: RecordMap, ghost h: History)
      returns (result: Result<CommitReply, StoreError>)
      requires Represents(store.db.tables, store.manifest, initial, h)
      requires ExecutionContract(prior, store.manifest.worldId, UsedEvents(h), command, changes) && SelfKeyed(prior)
      requires Lands(h, command, fate) ==> DeletesSaved(initial, h, changes)
      requires request == Assemble(command, changes)
      modifies store`revision, store.db`tables
      ensures Represents(store.db.tables, store.manifest, initial, Landed(h, request, fate))
      ensures Told(h, request, fate, result)
      ensures Placed(h, request, fate)
      ensures Lands(h, command, fate) ==>
        RecordsAfter(initial, h + [request]) == Applied(RecordsAfter(initial, h), changes)
      ensures forall i :: 0 <= i < |changes.events| ==> changes.events[i].id !in UsedEvents(h)
    {
      hide Represents, CommitTx, ExecutionContract, WellFormed, RecordsAfter, Applied, Expressible, Validate,
        Durable, Told, UsedActions, DeletesSaved, UsedEvents;
      ghost var t, m := store.db.tables, store.manifest;
      ContractMoves(t, m, initial, h, prior, command, changes);
      ExecutedRequest(t, m, initial, h, prior, command, changes);
      CommitTold(t, m, store.revision, initial, h, request, fate);
      result := store.Commit(request, fate);
      SavedHistoryIsGood(store.db.tables, m, initial, Landed(h, request, fate));
      LandedFacts(m, initial, h, request, fate);
    }

    /** Commit what was executed on records `prior`, then one arm for each reply. */
    method CommitExecuted(
      command: Command, execution: Execution, committed: Session, request: CommitRequest,
      fate: Fate, available: bool, health: Recovery, beforeResolve: Tables -> Tables, beforeReload: Tables -> Tables,
      ghost prior: RecordMap, ghost initial: RecordMap, ghost h: History)
      returns (reply: Result<CommittedAction, RuntimeError>, ghost after: History, ghost settled: bool)
      requires Represents(store.db.tables, store.manifest, initial, h)
      requires execution.Executed? && Builds(command, execution.changes) && SelfKeyed(prior)
      requires Promised(prior, command.expectedRevision, events, store.manifest.worldId, h, command, execution)
      requires Commits(h, command, execution, fate) ==> DeletesSaved(initial, h, execution.changes)
      requires request == Assemble(command, execution.changes)
      requires Valid() && records == execution.newRecords && revision == command.expectedRevision + 1
        && session == execution.newSession
      requires Interference(beforeResolve, store.manifest, initial, command.actionId)
      requires Interference(beforeReload, store.manifest, initial, command.actionId)
      modifies this, store`revision, store.db`tables
      ensures Valid() && Represents(store.db.tables, store.manifest, initial, after)
        && Landed(h, request, fate) <= after
      ensures settled ==> Holds(initial, after) && AgreesWithSave()
      ensures Keeps(h, command, execution, fate) ==>
        && after == h && session == execution.newSession && (AgreesWithSave() <==> settled)
        && (settled <==> KeptFits(execution.newRecords, execution.changes.events, old(events), initial,
              command.expectedRevision, h))
        && events == Sort(WithNew(old(events), execution.changes.events), EventRank)
      ensures !Keeps(h, command, execution, fate) ==>
        (settled <==>
          if Lands(h, command, fate) && fate == Succeeds
          then AllEvents(old(events), h) && execution.newRecords == RecordsAfter(initial, h + [request])
          else health == Recovers)
      ensures Lands(h, command, fate) ==>
        && (prior == RecordsAfter(initial, h) ==> execution.newRecords == RecordsAfter(initial, h + [request]))
        && (!settled && prior == RecordsAfter(initial, h) && Lags(old(events), h) ==> Tracks(initial, h + [request]))
      ensures reply.Ok? <==> Reported(h, command, execution, fate, available, health)
      ensures Durable(after, command) <==> Durable(h, command) || Lands(h, command, fate)
      ensures reply.Ok? ==> var n := command.expectedRevision;
        n < |after| && after[n].command == command && reply.value == after[n].outcome
          && session == execution.newSession
      ensures reply.Ok? && !Keeps(h, command, execution, fate) ==>
        && ListsOwn(events, after[command.expectedRevision].events)
        && (Lags(old(events), h) ==> Lags(events, after))
      ensures reply.Err? && settled ==> session == committed && (Durable(after, command) ==> !available)
    {
      hide Represents, LoadResult, ExecutionContract, RecordsAfter, Continues, Interference, OpsOf, TranscriptsOf,
        UsedEvents, MatchesLoad, Applied, Expressible, Validate, Lands, Durable, AllEvents, KeptFits, Lags, SelfKeyed,
        CommittedEvents, ListsId, ListsOwn, WithNew, Sort, DeletesSaved, SortedBy;
      var result := Send(command, execution.changes, request, fate, prior, initial, h);
      ghost var h1 := Landed(h, request, fate);
      ghost var n := command.expectedRevision;
      if result.Err? {
        LagsGrow(events, h, h1);
        reply, after, settled := ResolveThenReload(
          command, if n < |h1| then h1[n].outcome else request.outcome, result.error, execution.newSession, committed,
          available, health, beforeResolve, beforeReload, initial, h1);
        SavedOwn(store.db.tables, store.manifest, initial, after, n, events);
        return;
      }
      match result.value
      case Committed(outcome) =>
        settled := AllEvents(events, h) && records == RecordsAfter(initial, h1);
        KeepExecuted(command, execution.changes, initial, h);
        return Ok(outcome), h1, settled;
      case AlreadyCommitted(outcome) =>
        settled := KeptFits(records, execution.changes.events, events, initial, n, h);
        KeepRepeated(execution.changes, initial, n, h);
        return Ok(outcome), h, settled;
      case _ =>
        var reload;
        reload, after := Reload(committed, health, beforeReload, command.actionId, initial, h);
        DurableContinues(store.db.tables, store.manifest, initial, h, after, command);
        return Err(if reload.Err? then reload.error else NotAvailable), after, reload.Ok?;
    }

    /**
     * `apply_command`, on any world: one that stands on the durable history, on a
     * prefix of it, or on neither, as after a failed reload or a repeated command.
     * The command may be durable already, and other handles may commit before the
     * resolution and before the reload.
     */
    method ApplyCommand(
      command: Command, execution: Execution, fate: Fate, available: bool, health: Recovery,
      beforeResolve: Tables -> Tables, beforeReload: Tables -> Tables,
      ghost initial: RecordMap, ghost h: History)
      returns (reply: Result<CommittedAction, RuntimeError>, ghost after: History, ghost settled: bool)
      requires Valid() && Represents(store.db.tables, store.manifest, initial, h)
      requires Promised(records, revision, events, store.manifest.worldId, h, command, execution)
      // A commit that deletes what the save does not hold makes it unloadable: see `CommitLoads`.
      requires Commits(h, command, execution, fate) ==> DeletesSaved(initial, h, execution.changes)
      requires Interference(beforeResolve, store.manifest, initial, command.actionId)
      requires Interference(beforeReload, store.manifest, initial, command.actionId)
      modifies this, store`revision, store.db`tables
      ensures Valid() && Represents(store.db.tables, store.manifest, initial, after) && h <= after
      // A settled world equals what a load returns.
      ensures settled ==> Holds(initial, after) && AgreesWithSave()
      // Kept without a commit or a reload, it equals a load exactly when it happens to fit the save.
      ensures Keeps(h, command, execution, fate) ==>
        && after == h && session == execution.newSession && (AgreesWithSave() <==> settled)
        && (settled <==> KeptFits(execution.newRecords, MergedBy(command, execution), old(events), initial,
              command.expectedRevision, h))
        && events == (if Builds(command, execution.changes)
                      then Sort(WithNew(old(events), execution.changes.events), EventRank) else old(events))
      // Otherwise it settles by a reload that works, or by a reported commit over a complete event list
      // whose records come out as the save's.
      ensures !Keeps(h, command, execution, fate) ==>
        (settled <==>
          if Commits(h, command, execution, fate) && fate == Succeeds
          then AllEvents(old(events), h)
            && execution.newRecords == RecordsAfter(initial, h + [Assemble(command, execution.changes)])
          else health == Recovers)
      // A commit extends the history; a world that stood on the history comes out with the save's
      // records and, even unsettled, stands on the commit.
      ensures Commits(h, command, execution, fate) ==>
        var grown := h + [Assemble(command, execution.changes)];
        && grown <= after
        && (old(records) == RecordsAfter(initial, h) ==> execution.newRecords == RecordsAfter(initial, grown))
        && (!settled && old(Tracks(initial, h)) ==> Tracks(initial, grown))
      // It succeeds exactly when the command is or becomes durable and that is reported, or found again.
      ensures reply.Ok? <==> Reported(h, command, execution, fate, available, health)
      ensures Durable(after, command) <==> Durable(h, command) || Commits(h, command, execution, fate)
      // Success means the action is durable at the revision it expected, with that outcome.
      ensures reply.Ok? ==> var n := command.expectedRevision;
        n < |after| && after[n].command == command && reply.value == after[n].outcome
          && session == execution.newSession
      // Its events are listed, unless the world was kept.
      ensures reply.Ok? && !Keeps(h, command, execution, fate) ==>
        && ListsOwn(events, after[command.expectedRevision].events)
        && (Lags(old(events), h) ==> Lags(events, after))
      // A failure that settles leaves the session parameters and, if resolution answered, nothing durable.
      ensures reply.Err? && settled && !Keeps(h, command, execution, fate) ==>
        session == old(session) && (execution.Executed? && Durable(after, command) ==> !available)
      ensures execution.Refused? && settled ==> reply == Err(WorldRefused)
    {
      hide Represents, LoadResult, ExecutionContract, RecordsAfter, Continues, Interference, OpsOf, TranscriptsOf,
        Applied, MatchesLoad, Expressible, Validate, Lands, Durable, AllEvents, KeptFits, SelfKeyed, WithNew, Sort,
        CommittedEvents, Lags, ListsId, ListsOwn, DeletesSaved, SortedBy;
      var committed := session;
      ghost var prior := records;
      if execution.Refused? {
        records, revision, session := execution.leftRecords, execution.leftRevision, execution.leftSession;
        var reload;
        reload, after := Reload(committed, health, beforeReload, command.actionId, initial, h);
        DurableContinues(store.db.tables, store.manifest, initial, h, after, command);
        return Err(if reload.Err? then reload.error else WorldRefused), after, reload.Ok?;
      }
      records, revision, session := execution.newRecords, execution.changes.revision, execution.newSession;
      var request := FromExecution(command, execution.changes);
      if request.Err? {
        ghost var n := command.expectedRevision;
        KeptUnsent(store.db.tables, store.manifest, initial, h, records, n, events);
        return Err(RequestFailed(request.error)), h, KeptFits(records, [], events, initial, n, h);
      }
      reply, after, settled := CommitExecuted(
        command, execution, committed, request.value, fate, available, health, beforeResolve, beforeReload, prior,
        initial, h);
    }

    /** `spawn_character`: apply the command, then find the event announcing the character. */
    method SpawnCharacter(
      command: Command, execution: Execution, fate: Fate, available: bool, health: Recovery,
      beforeResolve: Tables -> Tables, beforeReload: Tables -> Tables,
      ghost initial: RecordMap, ghost h: History)
      returns (reply: Result<ActorId, RuntimeError>, ghost after: History, ghost settled: bool)
      requires Valid() && Represents(store.db.tables, store.manifest, initial, h)
      requires Promised(records, revision, events, store.manifest.worldId, h, command, execution)
      requires Commits(h, command, execution, fate) ==> DeletesSaved(initial, h, execution.changes)
      requires Interference(beforeResolve, store.manifest, initial, command.actionId)
      requires Interference(beforeReload, store.manifest, initial, command.actionId)
      modifies this, store`revision, store.db`tables
      ensures Valid() && Represents(store.db.tables, store.manifest, initial, after) && h <= after
      ensures settled ==> Holds(initial, after) && AgreesWithSave()
      // A character is reported exactly when the command succeeds and the durable action spawned one;
      // a kept world knows only the action's events it had listed before.
      ensures reply.Ok? <==>
        && Reported(h, command, execution, fate, available, health)
        && command.expectedRevision < |after|
        && var own := after[command.expectedRevision].events;
           if Keeps(h, command, execution, fate) then Announces(old(events), own)
           else exists e :: e in own && SpawnedBy(e).Some?
      // That is none at all for a world whose events were committed before the action.
      ensures Keeps(h, command, execution, fate) && ListedBefore(old(events), h, command) ==> reply.Err?
      // It is the one the durable action announced first.
      ensures reply.Ok? && !Keeps(h, command, execution, fate) ==>
        exists e :: FirstSpawn(after[command.expectedRevision].events, e) && SpawnedBy(e) == Some(reply.value)
    {
      hide Represents, LoadResult, ExecutionContract, RecordsAfter, Interference, MatchesLoad, Applied, Validate,
        GoodHistory, CommittedEvents, OpsOf, TranscriptsOf, Promised, KeptFits, AllEvents, Lands, Reported, Durable,
        Lags, DeletesSaved, Sort, WithNew, UsedEvents, Holds, AgreesWithSave, Announces;
      var outcome;
      ghost var listed, prior, n := events, records, command.expectedRevision;
      PromisedFresh(prior, revision, listed, store.manifest.worldId, h, command, execution);
      outcome, after, settled := ApplyCommand(
        command, execution, fate, available, health, beforeResolve, beforeReload, initial, h);
      if outcome.Err? {
        return Err(outcome.error), after, settled;
      }
      ReportedBuilds(h, command, execution, fate, available, health);
      SavedHistoryIsGood(store.db.tables, store.manifest, initial, after);
      ghost var own := after[n].events;
      OutcomeLists(initial, store.manifest.worldId, after, n);
      var found := FindAnnounced(events, outcome.value.eventIds, own);
      if Keeps(h, command, execution, fate) {
        KeptAnnounces(initial, store.manifest.worldId, h, n, listed, execution.changes.events, events);
        if ListedBefore(listed, h, command) {
          EarlierAnnounceNothing(initial, store.manifest.worldId, h, n, listed);
        }
      } else {
        OwnAnnounced(events, own);
      }
      reply := if found.Some? then Ok(found.value) else Err(NotAvailable);
    }
  }
}
