/**
 * Concrete saves at which the program departs from what its interfaces
 * suggest. Each follows from a general result by exhibiting an input.
 */
module SaveWitnesses {
  import opened Outcomes
  import opened Ordering
  import opened Records
  import opened ChangeSets
  import opened Requests
  import opened Locks
  import opened SaveTables
  import opened SaveHistory
  import opened SaveLoading
  import opened SaveProtocol
  import opened SaveStores
  import opened RuntimeWorlds

  const FIRST_LOCK: WorldLock := WorldLock(1, 1, 1, 1, 1)
  const NEXT_LOCK: WorldLock := WorldLock(1, 2, 1, 1, 1)
  const SAVE: Manifest := Manifest(SAVE_FORMAT_V1, 7, 3, FIRST_LOCK, [])
  const RECORDS: seq<DomainRecord> := [WorldState(3, 0)]

  ghost function Start(): RecordMap {
    assert DistinctRecordKeys(RECORDS);
    KeyedRecords(RECORDS)
  }

  lemma SaveIsCreatable()
    ensures Creatable(SAVE, RECORDS) && ValidManifest(SAVE.(worldLock := NEXT_LOCK))
    ensures Represents(InitialTables(SAVE, RECORDS), SAVE, Start(), [])
  {
    assert RECORDS[0] == WorldState(3, 0);
    assert TranscriptsOf(RECORDS) == [] by {
      assert TranscriptsOf(RECORDS[1..]) == [];
    }
    CreatedRepresents(SAVE, RECORDS);
  }

  lemma NothingYet()
    ensures RecordsAfter(Start(), []) == Start() && UsedEvents([]) == {}
  {}

  lemma AppliedSelfKeyed(prior: RecordMap, c: ChangeSet)
    requires SelfKeyed(prior)
    ensures SelfKeyed(Applied(prior, c))
  {}

  /** One record inserted at revision 1, with the given events. */
  function Insertion(events: seq<Event>): ChangeSet {
    InsertPlain(1).(events := events)
  }

  const SPARE_EVENT: Event := Event(9, 1, 0, 1, 0)

  lemma InsertionKeepsContract(events: seq<Event>, used: set<EventId>)
    requires events == [] || (events == [SPARE_EVENT] && SPARE_EVENT.id !in used)
    ensures ExecutionContract(Start(), 3, used, INSERT_COMMAND, Insertion(events))
  {
    InsertPlainIsSound(1, Start(), 3, used);
    assert Mutations(Insertion(events)) == Mutations(InsertPlain(1));
  }

  /** The save after its first insertion, which had no events. */
  ghost function Inserted(): Tables {
    CommitTx(InitialTables(SAVE, RECORDS), SAVE, 0, Assemble(INSERT_COMMAND, Insertion([])), Succeeds).tables
  }

  lemma InsertionCommits()
    ensures CommitTx(InitialTables(SAVE, RECORDS), SAVE, 0, Assemble(INSERT_COMMAND, Insertion([])), Succeeds).reply
      == Ok(Committed(Assemble(INSERT_COMMAND, Insertion([])).outcome))
    ensures Represents(Inserted(), SAVE, Start(), [Assemble(INSERT_COMMAND, Insertion([]))])
    ensures RecordsAfter(Start(), [Assemble(INSERT_COMMAND, Insertion([]))]) == Applied(Start(), Insertion([]))
  {
    var none: History := [];
    NothingYet();
    hide Represents, CommitTx, ExecutionContract, WellFormed, RecordsAfter, Applied, Expressible, Validate,
      InsertPlain, OpsOf;
    var t, c := InitialTables(SAVE, RECORDS), Insertion([]);
    var r := Assemble(INSERT_COMMAND, c);
    SaveIsCreatable();
    InsertionKeepsContract([], {});
    ExecutedRequest(t, SAVE, Start(), none, Start(), INSERT_COMMAND, c);
    CommitTold(t, SAVE, 0, Start(), none, r, Succeeds);
    assert Lands(none, INSERT_COMMAND, Succeeds);
    assert none + [r] == [r];
  }

  /**
   * The insertion executed and committed once more, from the world of the
   * created save: with an event the kept world matches no load, without one it does.
   */
  lemma RepeatedInsertion(events: seq<Event>)
    requires events == [] || events == [SPARE_EVENT]
    ensures CommitTx(Inserted(), SAVE, 0, Assemble(INSERT_COMMAND, Insertion(events)), Succeeds).reply
      == Ok(AlreadyCommitted(Assemble(INSERT_COMMAND, Insertion([])).outcome))
    ensures events == [] <==>
      MatchesLoad(Inserted(), SAVE, Applied(Start(), Insertion(events)), 1, Sort(WithNew([], events), EventRank))
  {
    hide Represents, CommitTx, ExecutionContract, RecordsAfter, Applied, Expressible, Validate, OpsOf, MatchesLoad,
      Sort, WithNew, Inserted;
    var first := Assemble(INSERT_COMMAND, Insertion([]));
    var h := [first];
    InsertionCommits();
    assert UsedEvents(h) == {};
    InsertionKeepsContract(events, {});
    ContractIsAccepted(Start(), 3, {}, INSERT_COMMAND, Insertion(events));
    SaveTells(Inserted(), SAVE, Start(), h, INSERT_COMMAND);
    CommitOutcome(Inserted(), SAVE, 0, h, Assemble(INSERT_COMMAND, Insertion(events)), Succeeds);
    assert h[0].command == INSERT_COMMAND;
    AppliedIgnoresEvents(Start(), Insertion([]), events);
    assert Insertion([]).(events := events) == Insertion(events);
    assert SelfKeyed(Applied(Start(), Insertion(events))) by {
      SavedRecordsAreGood(Inserted(), SAVE, Start(), h);
    }
    KeptAgrees(Inserted(), SAVE, Start(), h, Applied(Start(), Insertion(events)), 0, [], events);
    NoEventsListed(h);
  }

  lemma NoEventsListed(h: History)
    requires forall i :: 0 <= i < |h| ==> h[i].events == []
    ensures AllEvents([], h)
  {
    assert CommittedEvents(h) == {};
  }

  lemma AppliedIgnoresEvents(prior: RecordMap, c: ChangeSet, events: seq<Event>)
    requires |c.upserts| == 1
    ensures Applied(prior, c.(events := events)) == Applied(prior, c)
  {
    var d := c.(events := events);
    assert UpsertKeys(d) == UpsertKeys(c);
    forall k | k in UpsertKeys(c)
      ensures UpsertFor(d, k) == c.upserts[0] == UpsertFor(c, k)
    {}
  }

  lemma NothingToSend(command: Command, c: ChangeSet)
    requires c.upserts == [] && c.deletes == []
    ensures !Builds(command, c)
  {
    SortMembers(Mutations(c), MutationRank);
  }

  /** An execution without any change is not sent, and its world, one revision ahead of the created save, is kept. */
  lemma EmptyExecution()
    ensures var c := ChangeSet(1, 0, 1, [], [], [], 0);
      && !Builds(INSERT_COMMAND, c)
      && !MatchesLoad(InitialTables(SAVE, RECORDS), SAVE, Applied(Start(), c), 1, [])
  {
    hide *;
    var none: History := [];
    var c := ChangeSet(1, 0, 1, [], [], [], 0);
    SaveIsCreatable();
    NothingToSend(INSERT_COMMAND, c);
    StartSelfKeyed();
    AppliedSelfKeyed(Start(), c);
    NotAhead(Applied(Start(), c), Start(), none);
    KeptUnsent(InitialTables(SAVE, RECORDS), SAVE, Start(), none, Applied(Start(), c), 0, []);
  }

  const SPARE: DomainRecord := Other(0, 1, 0, true)
  const DELETE_COMMAND: Command := Command(2, 0, 1, 0)

  function Deletion(): ChangeSet {
    ChangeSet(2, 1, 2, [], [KeyOf(SPARE)], [], 0)
  }

  /**
   * A world at the save's revision that holds a record the save does not, as one
   * whose own insertion failed and whose reload failed may once another handle
   * has committed: deleting that record is reported as committed, and after it
   * the save does not load.
   */
  lemma StrayDeletion()
    ensures var prior := Start()[KeyOf(SPARE) := SPARE];
      ExecutionContract(prior, 3, UsedEvents([Assemble(INSERT_COMMAND, Insertion([]))]), DELETE_COMMAND, Deletion())
    ensures var step := CommitTx(Inserted(), SAVE, 1, Assemble(DELETE_COMMAND, Deletion()), Succeeds);
      step.reply.Ok? && step.reply.value.Committed? && LoadResult(step.tables, SAVE).None?
  {
    hide Represents, CommitTx, ExecutionContract, RecordsAfter, Applied, Expressible, Validate, OpsOf, Inserted,
      LoadResult, Lands, DeletesSaved, SelfKeyed, TakesEffect, UsedEvents, DistinctTranscripts, TranscriptsOf, Start;
    var h := [Assemble(INSERT_COMMAND, Insertion([]))];
    var prior := Start()[KeyOf(SPARE) := SPARE];
    var c := Deletion();
    InsertionCommits();
    StrayContract(h);
    CommitLoads(Inserted(), SAVE, 1, Start(), h, prior, DELETE_COMMAND, c, Succeeds);
    ExecutedRequest(Inserted(), SAVE, Start(), h, prior, DELETE_COMMAND, c);
    LandsExactly(Inserted(), SAVE, 1, Start(), h, Assemble(DELETE_COMMAND, c), Succeeds);
  }

  lemma StrayContract(h: History)
    requires h == [Assemble(INSERT_COMMAND, Insertion([]))]
    requires RecordsAfter(Start(), h) == Applied(Start(), Insertion([]))
    ensures ExecutionContract(Start()[KeyOf(SPARE) := SPARE], SAVE.worldId, UsedEvents(h), DELETE_COMMAND, Deletion())
    ensures SelfKeyed(Start()[KeyOf(SPARE) := SPARE])
    ensures Lands(h, DELETE_COMMAND, Succeeds) && !DeletesSaved(Start(), h, Deletion())
  {
    StartSelfKeyed();
    SpareNotSaved();
    hide Applied, RecordsAfter, Start, UsedEvents, OpsOf, TranscriptsOf;
    assert Deletion().deletes[0] == KeyOf(SPARE);
    assert |h| == 1 && h[0].command == INSERT_COMMAND;
    assert UsedActions(h) == {INSERT_COMMAND.actionId};
  }

  lemma SpareNotSaved()
    ensures KeyOf(SPARE) !in Applied(Start(), Insertion([]))
  {
    KeyedValues(RECORDS);
    assert Insertion([]).upserts == [Other(0, 0, 0, true)];
  }

  lemma StartSelfKeyed()
    ensures SelfKeyed(Start())
  {
    KeyedValues(RECORDS);
  }

  lemma NotAhead(records: RecordMap, initial: RecordMap, h: History)
    ensures !KeptFits(records, [], [], initial, |h|, h) && SortedBy([], EventRank)
  {}

  /**
   * A handle of the created save adopts a newer world lock, is told the backend
   * failed although the adoption took effect, commits the insertion and is told
   * it succeeded. After that nothing any handle does lets any handle load the save.
   */
  lemma LostAdoptionBreaksCreatedSave(run: seq<Act>, m: Manifest)
    ensures var adopted := Perform(CreatedSystem(SAVE, RECORDS), LostAdoption(0, NEXT_LOCK, []));
      var r := Assemble(INSERT_COMMAND, Insertion([]));
      && CommitTx(adopted.tables, SAVE, 0, r, Succeeds).reply == Ok(Committed(r.outcome))
      && LoadResult(PerformAll(Perform(adopted, CommitBy(0, r, Succeeds)), run).tables, m).None?
  {
    hide Represents, CommitTx, ExecutionContract, Expressible, Validate, InsertPlain, OpsOf, LoadResult, Perform,
      PerformAll, ValidManifest;
    var none: History := [];
    SaveIsCreatable();
    InsertionKeepsContract([], {});
    ContractIsAccepted(Start(), 3, {}, INSERT_COMMAND, Insertion([]));
    UpsertKeysDistinct(Insertion([]));
    TranscriptsOfDistinct(Insertion([]).upserts);
    LostAdoptionBreaksSave(
      CreatedSystem(SAVE, RECORDS), Chronicle(SAVE, none), Start(), 0, NEXT_LOCK, [],
        Assemble(INSERT_COMMAND, Insertion([])), run, m);
  }
}
