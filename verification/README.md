# Loreloom in Dafny

A model of the parts of Loreloom on which its consistency rests, with proofs of
what those parts guarantee. `dafny verify dfyconfig.toml` verifies all of it.

- **The save protocol** (`Records`, `ChangeSets`, `Requests`, `SaveTables`,
  `SaveHistory`, `SaveLoading`, `SaveProtocol`, `SaveStores`, `SaveReplies`,
  `SaveIntegrity`, `SaveWitnesses`). A save is six tables; every transaction is
  one atomic step whose commit may succeed, fail before or after taking effect,
  or report a serialization failure. The tables of every reachable save represent
  a *history*: the initial records and the requests that took effect. Loading
  returns the history's fold, and what a transaction answers is told by it.
- **The live world** (`RuntimeWorlds`). Commands run in memory first; the
  contract of `ApplyCommand` says after which of them the world equals what
  loading would give, and what still holds when a reload has failed.
- **Content** (`Packages`, `Graphs`, `DependencyOrders`, `PackageLocks`, `Locks`,
  `Patches`, `PatchMeanings`, `RuleCycles`, `PatchWitnesses`). Ordering, locking,
  patching, building and cycle detection with exact specifications.
- **Two threads at a time** (`Cancellation`, `Presenters`). Both protocols are
  machines over single atomic accesses; the classes are shown to do what those
  steps do when nothing interleaves.
- **Agent turns** (`Budgets`, `Runner`, `TurnMeanings`, `Orchestrations`,
  `NpcDecisions`, `PlayerInputs`, `PendingQueues`). Nested loops under budgets,
  with logs of what was really sent and executed.
- **Numbers and listings** (`Numeric`, `PointBudgets`, `Paging`, `Migrations`).

Five behaviours of the program differ from what its interfaces suggest. Each is
proved with the condition it depends on, and shown at an input
(`SaveWitnesses`).

- `record_ops` and `validate` accept up to 2^32 operations
  (`Requests.SoundIsRequest`), replay one fewer (`ChangeSets.ChangeSetMeaning`);
  `Requests.LargestRequestIsNotReplayed` gives the change set in between.
- A commit checksums the handle's cached manifest while the head keeps the
  durable one, so the head stays valid exactly when they are equal
  (`SaveProtocol.HeadValidIffManifestsAgree`). An adoption that is reported
  failed but took effect leads there with a single handle, and the save is then
  never loadable again (`SaveProtocol.LostAdoptionBreaksSave`); runs therefore
  let only handles with the durable manifest commit.
- A world executed for a command that is already durable, or for changes no
  request can be built from, is kept without a commit or a reload. It equals
  what a load returns exactly if it merged no event, the save is one commit
  ahead of it with the same records, and no event is missing
  (`RuntimeWorlds.KeptAgrees`, `RuntimeWorlds.KeptUnsent`).
- A world left behind by a failed reload, or kept as above, is executed on again.
  While the head is elsewhere its commit conflicts and a reload that works repairs
  it. When another handle's commits have brought the head to its revision, its own
  commit takes effect, and the save still loads exactly if that deletes only
  records the save held (`RuntimeWorlds.CommitLoads`, `SaveWitnesses.StrayDeletion`).
- Generation stamps tell results apart only up to 2^64 (`Presenters.StampsWrap`).

How to read the environment: identifiers are naturals, which keeps their order
and equality; JSON codecs are inverse pairs; a digest is the digested content. A
serialization failure comes with whatever head is read after it. Clocks,
cancellation, model replies, tool results and service failures are arbitrary
functions of how often they were consulted. What executing a command promises is `Requests.ExecutionContract`: a
non-empty change set at the next revision with distinct keys, valid records,
deletes of live plain records and fresh events
(crates/loreloom-world/src/game_world.rs:388-420 rolls back on a refusal, and may
fail to, which `Execution.Refused` covers by leaving any world behind).

## Model

| member | source | states |
|---|---|---|
| `Records.RebuildRecords` | crates/loreloom-core/src/record.rs:470-540 | The two loops over a checkpoint and a log compute exactly the replay function, including which error is reported first. |
| `Records.ReplayBlock` | crates/loreloom-core/src/record.rs:489-538 | One action's block with distinct keys and live deletes is replayed to the record set after its mutations if and only if it has at most 2^32-1 operations; a longer one fails with the order error at 2^32-1. |
| `Records.ReplayContiguous` | crates/loreloom-core/src/record.rs:489-519 | Whatever replay accepts has contiguous revisions, one action per revision and orders counting from zero. |
| `Records.SeedAccepts` | crates/loreloom-core/src/record.rs:475-484 | A checkpoint with distinct keys and no newer envelope seeds exactly its own records. |
| `ChangeSets.RecordOps` | crates/loreloom-core/src/protocol.rs:222-268 | The loops succeed exactly on distinct keys, valid records and at most 2^32 operations, and then return the mutations sorted by key and numbered from zero; each error names a real fault. |
| `ChangeSets.OpsFacts` | crates/loreloom-core/src/protocol.rs:222-268 | The returned operations hold exactly the listed mutations, with distinct keys, revision, action and consecutive orders. |
| `ChangeSets.OpsContent` | crates/loreloom-core/src/protocol.rs:222-268 | The operations ascend by record type and identifier, are numbered from zero, and each deletes a listed key or writes a listed record with its key, the schema, the change set's revision and its action as provenance. |
| `ChangeSets.ChangeSetMeaning` | crates/loreloom-core/src/record.rs:489-538 | Replaying a change set's operations over any record set holding the deleted keys gives old minus deletes plus upserts; replay accepts them if and only if there are at most 2^32-1, one fewer than `record_ops` lets through. |
| `ChangeSets.ListingOrderIrrelevant` | crates/loreloom-core/src/protocol.rs:222-268 | Two change sets that list the same changes in different orders give the same operations. |
| `Requests.SoundIsRequest` | crates/loreloom-store/src/request.rs:61-172 | Otherwise sound changes are expressible, and then validate, exactly when there are at most 2^32 operations. |
| `Requests.LargestRequestIsNotReplayed` | crates/loreloom-store/src/request.rs:115-172 | Inserting 2^32 plain records passes `record_ops` and `validate` and is rejected by every replay, whatever records it starts from; inserting one fewer is replayed. |
| `Requests.ValidRequestIsBlock` | crates/loreloom-store/src/request.rs:115-172 | A request that validates holds one non-empty block of its own action at the next revision, with distinct events of that action. |
| `Requests.ValidatesExactly` | crates/loreloom-store/src/request.rs:115-172 | A request validates if and only if one action at the revision after the expected one has numbered operations, its own distinct events named in the outcome in order, and transcripts of that revision that are upserted too; only the largest revision overflows. |
| `Requests.FromExecution` | crates/loreloom-store/src/request.rs:61-88 | Succeeds exactly when the change set is expressible and the assembled request validates; the request then is the command's, its outcome carries the change set's action, revision, summary and event identifiers in order, and its transcripts are the upserted ones. |
| `Requests.ContractIsAccepted` | crates/loreloom-store/src/request.rs:61-172 | A change set satisfying the execution contract is always expressible and its request always validates. |
| `SaveHistory.RequestAppliesChanges` | crates/loreloom-store/src/request.rs:61-172 | The request built from an execution is well formed where it is committed, and its operations turn the records into old minus deletes plus upserts. |
| `SaveHistory.RecordsStayGood` | crates/loreloom-store/src/store.rs:834-846 | After any history of well-formed commits every record is valid, stored under its own key, and there is exactly one world state, with the save's world identity. |
| `SaveHistory.CommitExtends` | crates/loreloom-store/src/store.rs:215-322 | If the tables represent a history, the rows a well-formed commit writes make them represent that history plus the commit, in all six tables. |
| `SaveHistory.NoCollision` | crates/loreloom-store/src/store.rs:258-297 | A valid request for the next revision never reuses a stored primary key. |
| `Locks.ValidateLock` | crates/loreloom-core/src/persistence.rs:80-124 | Accepts exactly the locks with unique mods, non-zero schemas, ascending dependencies each naming an earlier mod at its exact version or an absent optional one, and own distinct patches. |
| `Locks.ValidLockExactly` | crates/loreloom-core/src/persistence.rs:80-124 | A lock is valid if and only if mods differ, schemas are not zero, dependencies ascend, each is an earlier mod at its version or optional and absent, and patches are the mod's own, each once. |
| `Locks.SplitWorldLock` | crates/loreloom-content/src/world_project.rs:291-338 | Succeeds exactly when the full lock has one clean world entry and both parts validate, and returns the world lock and the remaining mods in order without dependencies on what was removed. |
| `Locks.SplitKeepsEntries` | crates/loreloom-content/src/world_project.rs:291-338 | The world lock carries the world entry's version, hashes and schema; the mod lock carries every entry that is neither the world's nor the engine's, in order and unchanged but for dependencies on what is gone. |
| `Locks.SplitKeepsValidity` | crates/loreloom-content/src/world_project.rs:291-338 | What remains of a valid full lock after removing any set of mods is a valid lock in the original relative order. |
| `Locks.ValidLockSplits` | crates/loreloom-content/src/world_project.rs:291-338 | A valid full lock whose only world entry has no dependencies or patches always splits. |
| `SaveStores.CheckHead` | crates/loreloom-store/src/store.rs:605-616 | A head row is accepted exactly when its revision, checksum, manifest and identity agree. |
| `SaveStores.LoadCheckpoint` | crates/loreloom-store/src/store.rs:618-663 | Succeeds exactly when every checkpoint row is sound and the newest one ascends by key, and returns the newest one. |
| `SaveStores.LoadRecordOps` | crates/loreloom-store/src/store.rs:665-709 | Succeeds exactly when every operation row is sound, and returns those above the checkpoint in (revision, order) order. |
| `SaveStores.LoadEvents` | crates/loreloom-store/src/store.rs:711-744 | Succeeds exactly when every event row is sound and no event identifier repeats, and returns all events in (revision, identifier) order. |
| `SaveStores.LoadActions` | crates/loreloom-store/src/store.rs:746-767 | Succeeds exactly when every action row is sound and none is newer than the head, and returns the outcome of each. |
| `SaveStores.LoadTranscripts` | crates/loreloom-store/src/store.rs:769-811 | Succeeds exactly when every transcript row is sound, and returns the newest version of each transcript. |
| `SaveStores.LoadProjectedTranscripts` | crates/loreloom-store/src/store.rs:769-832 | Succeeds exactly when the newest transcript versions are the transcript records, both ways, and returns them in order. |
| `SaveStores.SaveStore.Commit` | crates/loreloom-store/src/store.rs:215-322 | For every fate of the transaction, the tables, the cached revision and the reply are those of the commit transaction: rows and head together or not at all, duplicates and conflicts found first, and after a serialization failure the conflict and the cached revision are those of the head read again. |
| `SaveStores.SaveStore.ResolveAction` | crates/loreloom-store/src/store.rs:325-351 | Reports the stored outcome, an identity conflict or the head revision, and changes no table. |
| `SaveStores.SaveStore.LoadRecords` | crates/loreloom-store/src/store.rs:353-377 | Succeeds exactly when head, newest checkpoint, log and actions agree and replay ends at the head, and returns the replayed records. |
| `SaveStores.SaveStore.Load` | crates/loreloom-store/src/store.rs:353-398 | Succeeds exactly when the whole load specification does, returns its result and moves the cached revision to the head; on an error nothing changes. |
| `SaveStores.SaveStore.Checkpoint` | crates/loreloom-store/src/store.rs:400-461 | Its tables, revision and reply are those of preparing and then, over whatever other handles made of the tables meanwhile, writing; `SaveReplies.CheckpointTaken` says what that stores. |
| `SaveStores.SaveStore.WriteCheckpoint` | crates/loreloom-store/src/store.rs:412-461 | Its tables, revision and reply are those of the second transaction of a checkpoint, which `SaveReplies.WritesExactly` describes. |
| `SaveStores.SaveStore.AdoptContentLocks` | crates/loreloom-store/src/store.rs:164-213 | Replaces the locks in the head at the same revision, only from the durable manifest and the current revision. |
| `SaveStores.SaveStore.Connect` | crates/loreloom-store/src/store.rs:135-153 | Gives a new handle exactly when there is one valid head carrying this handle's manifest. |
| `SaveStores.CreateSave` | crates/loreloom-store/src/store.rs:67-126 | Succeeds exactly on a fresh path, valid manifest and records and a successful commit, and writes the head, the first checkpoint and the initial transcripts together or not at all. |
| `SaveStores.CreatedRepresents` | crates/loreloom-store/src/store.rs:67-126 | A created save represents its initial records with no commits. |
| `SaveStores.CreatableExactly` | crates/loreloom-store/src/store.rs:67-126 | A save can be created if and only if the manifest is valid and the records are valid, each key once, with exactly one world state, the save's own, and no transcript of a later revision. |
| `SaveStores.EveryRunLoadsFold` | crates/loreloom-store/src/store.rs:353-398 | From creation, after every interleaving of commits, resolutions, loads, checkpoints, adoptions and connections by any handles in any fates, loading succeeds and returns the fold of the commits that took effect. |
| `SaveLoading.LoadIsFold` | crates/loreloom-store/src/store.rs:353-398 | Loading tables that represent a history returns the fold of its change sets over the initial records, its events and its newest transcripts, whichever checkpoints exist. |
| `SaveLoading.ReplayHistory` | crates/loreloom-core/src/record.rs:489-538 | Replaying the blocks above any checkpoint of a history, from records that decode to the history so far, ends at the head with the whole history's records. |
| `SaveLoading.CheckpointSeeds` | crates/loreloom-store/src/store.rs:848-869 | A checkpoint, whose envelopes carry a rewritten revision and no provenance, seeds exactly the records it was taken of. |
| `SaveLoading.TranscriptsSelected` | crates/loreloom-store/src/store.rs:769-832 | In every represented history the newest stored transcript versions are the transcript records, so the projection check passes. |
| `SaveLoading.TornLoadNeverMixes` | crates/loreloom-store/src/store.rs:353-398 | A load whose tables are read one after another while other handles commit in between fails or returns the state at the moment the head was read. |
| `SaveLoading.TornLoadSucceeds` | crates/loreloom-store/src/store.rs:353-398 | Such a load succeeds exactly when no commit was made before operations and actions were read, and none with an event or a transcript before events and transcripts were. |
| `SaveProtocol.HeadValidIffManifestsAgree` | crates/loreloom-store/src/store.rs:299-304 | After a commit that takes effect the head row is valid if and only if the committing handle's cached manifest equals the durable one. |
| `SaveProtocol.NeverLoadableAgain` | crates/loreloom-store/src/store.rs:164-461 | Once no head validates, no run of any handles, admissible or not, ever makes any load succeed again. |
| `SaveProtocol.LostAdoptionBreaksSave` | crates/loreloom-store/src/store.rs:203-208 | From any represented save: an adoption reported failed that took effect, then a commit by the same handle, which is reported committed, and after any further run no load succeeds under any manifest. |
| `SaveWitnesses.LostAdoptionBreaksCreatedSave` | crates/loreloom-store/src/store.rs:203-208 | The same at a concrete created save with one concrete adoption and commit. |
| `SaveProtocol.RetryReturnsOriginal` | crates/loreloom-store/src/store.rs:224-240 | Once committed, a command sent again in any fate that reaches the tables changes nothing and returns the original outcome, resolving returns it too, and reusing its identifier for another command is refused. |
| `SaveProtocol.CheckpointKeepsHistory` | crates/loreloom-store/src/store.rs:400-461 | A checkpoint prepared from one state and written in any fate over any later one leaves the tables representing the later history; it writes only if nothing was committed in between, and is otherwise refused with the head's revision. |
| `SaveProtocol.PreparedIsFold` | crates/loreloom-store/src/store.rs:400-406 | What a handle prepares is the history's fold at the head's revision, and a handle with a stale manifest prepares nothing. |
| `SaveProtocol.SealedCheckpointKeepsHistory` | crates/loreloom-store/src/store.rs:412-461 | Writing a prepared checkpoint at any later moment keeps the tables representing the history, so that every stored checkpoint is the fold at its own revision. |
| `SaveProtocol.AdoptKeepsHistory` | crates/loreloom-store/src/store.rs:164-213 | Adopting content locks in any fate leaves the tables representing the same history under the durable manifest it leads to. |
| `SaveProtocol.StepKeepsConsistent` | crates/loreloom-store/src/store.rs:164-461 | Every protocol step keeps the tables representing the recorded history, all handles on the same save, and the earlier history a prefix. |
| `SaveProtocol.RunKeepsConsistent` | crates/loreloom-store/src/store.rs:164-461 | Every interleaving of admissible steps, of any length, keeps the tables representing the recorded history and extends the earlier history. |
| `SaveProtocol.CommittedForever` | crates/loreloom-store/src/store.rs:215-351 | A commit that took effect, reported or not, is found with its original outcome after any further run. |
| `SaveProtocol.CommitSafety` | crates/loreloom-store/src/store.rs:215-322 | Head revision n means each revision 1..n belongs to exactly one action and holds one non-empty contiguous block of exactly its operations, and there are no other actions or operations. |
| `SaveReplies.CommitRefused` | crates/loreloom-store/src/store.rs:215-222 | A request that does not validate, whose revision is out of range or that does not reach the backend changes nothing and is answered with that error. |
| `SaveReplies.CommitReplies` | crates/loreloom-store/src/store.rs:224-322 | A new action conflicts exactly when the head is not at the revision it expects; otherwise its rows are there exactly if the transaction commits, the handle holds the new revision exactly if it is told so, and after a serialization failure it holds the revision read again. |
| `SaveReplies.ResolveReplies` | crates/loreloom-store/src/store.rs:325-351 | Resolving an action that is not in the history reports the head's revision and takes it over. |
| `SaveReplies.PreparesExactly` | crates/loreloom-store/src/store.rs:400-411 | A checkpoint is prepared if and only if the handle has the durable manifest, already knew the head's revision and lists exactly the save's records, each once. |
| `SaveReplies.WritesExactly` | crates/loreloom-store/src/store.rs:412-461 | Writing what was prepared is answered with success if and only if the head has not moved and the row is there or the transaction succeeds; a row is added exactly if the transaction commits at that head, and it restores the history's records. |
| `SaveReplies.CheckpointTaken` | crates/loreloom-store/src/store.rs:400-461 | A whole checkpoint succeeds if and only if it is prepared, nothing was committed between its transactions and the row is stored or was there; then the save holds a row at the handle's revision from which the records of its history are read back. |
| `SaveReplies.AdoptsExactly` | crates/loreloom-store/src/store.rs:164-213 | An adoption succeeds if and only if the candidate is valid, the handle has the durable manifest and the head's revision, and the transaction succeeds or there is nothing to change; the candidate becomes durable exactly if the transaction commits. |
| `SaveIntegrity.DamageStopsLoad` | crates/loreloom-store/src/store.rs:605-811 | Whatever column of whatever row of a loadable save is altered without its checksum, the save does not load. |
| `SaveIntegrity.MovedRowStopsLoad` | crates/loreloom-store/src/store.rs:665-811 | A row copied under another key stops the load. |
| `SaveIntegrity.MissingAction` | crates/loreloom-store/src/store.rs:353-398 | A save from which one action's row is gone still loads if and only if the action had no event and a checkpoint is at its revision or later. |
| `SaveIntegrity.LoadedIsConsistent` | crates/loreloom-store/src/store.rs:379-398 | Whatever tables a load succeeds on, it returns valid records in key order with the one world state, exactly the transcripts among them, each valid, and events in order, each once, of stored actions at their revisions. |
| `SaveIntegrity.LoadedLogIsComplete` | crates/loreloom-store/src/store.rs:353-377 | A load accepts only a log without gaps from the newest checkpoint to the head, whose operations belong to stored actions, over a checkpoint in key order with nothing newer than itself. |
| `SaveIntegrity.LoadedSchemas` | crates/loreloom-store/src/store.rs:353-377 | What a load replays are only envelopes of the current schema, each under its record's own key and with a valid record. |
| `SaveIntegrity.LoadedWithinHead` | crates/loreloom-store/src/store.rs:605-811 | A load accepts no row beyond the head and only actions that tell of one command. |
| `RuntimeWorlds.RuntimeWorld.Recover` | crates/loreloom-runtime/src/world_service.rs:2050-2065 | A successful reload makes the world exactly the durable history's world with the given session parameters; a failed one changes nothing. |
| `RuntimeWorlds.RuntimeWorld.AdoptEvents` | crates/loreloom-runtime/src/world_service.rs:2014-2020 | Appends, one by one, each added event whose identifier is not listed yet, and sorts. |
| `RuntimeWorlds.MergeIsUnion` | crates/loreloom-runtime/src/world_service.rs:2014-2020 | Merging is the union by identifier: what is listed stays, every identifier is there, nothing else is, and distinct identifiers stay distinct. |
| `RuntimeWorlds.MergedEvents` | crates/loreloom-runtime/src/world_service.rs:2014-2020 | After a commit the merged list holds only the history's events, in order, with all of the commit's; a complete list becomes the one a load would give. |
| `RuntimeWorlds.CommitOutcome` | crates/loreloom-runtime/src/world_service.rs:2012-2029 | A durable command is answered with its original outcome and changes nothing, unless the backend fails first; any other is reported committed only if it took effect, and a conflict reply means it did not. |
| `RuntimeWorlds.LandsExactly` | crates/loreloom-runtime/src/world_service.rs:2012-2029 | Whatever world it was executed on, a commit takes effect exactly when the head is at the revision it expects, its action identifier is new and the transaction commits, and then the reply is committed or in doubt according to its fate. |
| `RuntimeWorlds.CommitLoads` | crates/loreloom-runtime/src/world_service.rs:2011-2012 | When the head has come to the revision of a world that does not stand on the history, its next execution is committed all the same; the save then still loads, and holds the history with this commit, if and only if every record deleted is one it held. |
| `SaveLoading.MissingDeleteStopsLoad` | crates/loreloom-core/src/record.rs:532-536 | A log whose last action deletes a record the history does not hold is not loaded, whichever checkpoints of the history exist. |
| `RuntimeWorlds.ResolveTells` | crates/loreloom-runtime/src/world_service.rs:2030-2046 | An answered resolution says committed exactly when the command is durable, with its outcome. |
| `RuntimeWorlds.RuntimeWorld.ResolveThenReload` | crates/loreloom-runtime/src/world_service.rs:2030-2046 | After an in-doubt commit the reply is success exactly when the action is durable, the resolution answered and the reload worked. |
| `RuntimeWorlds.RuntimeWorld.ApplyCommand` | crates/loreloom-runtime/src/world_service.rs:1989-2048 | On any world, also one left by a failed reload or kept for a repeated command, and for every execution, commit fate, resolution, reload and interference by other handles: it succeeds exactly when the command is or becomes durable and that is reported or found again, with the durable outcome; durability changes exactly when the commit lands, and with the head elsewhere the world settles exactly by a reload that works; a settled world equals a load, which after a commit needs a complete event list and the save's records; a kept world equals a load exactly under `KeptFits`; a world that stood on the history stands on its commit even when the reload failed; failure otherwise keeps the session parameters. |
| `RuntimeWorlds.KeptAgrees` | crates/loreloom-runtime/src/world_service.rs:2013-2021 | A world executed at some revision and kept without a commit or a reload matches a load if and only if it merged no event, the save is exactly one commit ahead, no event is missing and its records are the save's. |
| `RuntimeWorlds.KeptUnsent` | crates/loreloom-runtime/src/world_service.rs:2011 | The same when no request could be built, where nothing is merged. |
| `RuntimeWorlds.KeptFitsComplete` | crates/loreloom-runtime/src/world_service.rs:2011-2021 | If no event was missing before, this means: exactly one commit was made meanwhile, with the same records as the execution, and neither it nor what was merged has an event. |
| `SaveWitnesses.RepeatedInsertion` | crates/loreloom-runtime/src/world_service.rs:2013-2021 | A concrete command committed and then executed and committed once more is answered with the original outcome, and the kept world matches a load if the execution had no event and does not if it had one. |
| `SaveWitnesses.EmptyExecution` | crates/loreloom-runtime/src/world_service.rs:2011 | A concrete execution without changes cannot be sent, and the world it leaves matches no load of the created save. |
| `SaveWitnesses.StrayDeletion` | crates/loreloom-runtime/src/world_service.rs:2011-2012 | A concrete world at the head's revision with a record the save does not hold: deleting it keeps the execution contract, is reported as committed, and the save does not load afterwards. |
| `RuntimeWorlds.RuntimeWorld.SpawnCharacter` | crates/loreloom-runtime/src/world_service.rs:1964-1987 | On any world, a character is reported exactly when the command succeeds and the durable action spawned one, which for a kept world must have been listed before; if all its events were committed earlier it never is; unless kept, it is the one that action announced first. |
| `Packages.ValidateManifest` | crates/loreloom-content/src/package.rs:663-739 | Accepts exactly the manifests with current schemas, distinct dependencies on other mods, and distinct own patches aimed at definitions of the mod they name. |
| `DependencyOrders.CountEdges` | crates/loreloom-content/src/package.rs:1016-1042 | Counts every edge to a present package with multiplicity, or reports the first dependency in mod and declaration order that is absent and required, or present at a version its requirement rejects. |
| `DependencyOrders.DependencyOrder` | crates/loreloom-content/src/package.rs:1015-1070 | Succeeds if and only if every declared dependency is present with an accepted version or absent and optional, and the graph has no cycle; the order then is the lexicographically least topological one; each error comes with a dependency, or a cycle, that causes it. |
| `DependencyOrders.CycleIsDeclared` | crates/loreloom-content/src/package.rs:1024-1069 | The graph has a cycle if and only if some packages each declare a dependency on the next, round to the first. |
| `DependencyOrders.DependenciesFirst` | crates/loreloom-content/src/package.rs:1052-1069 | An order is topological if and only if it has every package once and each after all present packages it declares. |
| `DependencyOrders.EmitKeepsProgress` | crates/loreloom-content/src/package.rs:1052-1065 | Emitting the least ready package and releasing its dependents keeps the ready set equal to the packages whose present dependencies are all emitted. |
| `DependencyOrders.NothingReady` | crates/loreloom-content/src/package.rs:1052-1069 | With nothing ready, all packages are emitted if and only if the graph has no cycle. |
| `Graphs.GreedyIsLeast` | crates/loreloom-content/src/package.rs:1052-1069 | A dependency-first order that always takes the least available node is lexicographically least among all of them. |
| `PackageLocks.BuildLock` | crates/loreloom-content/src/package.rs:1072-1113 | Returns one entry per package in order, exactly when that lock validates; each entry carries its package's version, hash, schemas and kind, the present dependencies at the versions found, and the patches, both sorted. |
| `PackageLocks.BuiltLockIsValid` | crates/loreloom-content/src/package.rs:1072-1113 | The lock of any dependency-first order of validated packages is valid. |
| `PackageLocks.OrderAndLock` | crates/loreloom-content/src/package.rs:556-580 | Ordering and locking validated packages succeeds exactly when every dependency is present with an accepted version or absent and optional, and there is no cycle, and the lock is valid. |
| `Patches.BuildRegistry` | crates/loreloom-content/src/registry.rs:155-217 | A registry is given exactly for documents whose definitions are each named by their own package, defined once, and sound together: values, references, and no cycle among the rules; it registers each definition with its package. |
| `Patches.ContentUnits.ReplaceDefinition` | crates/loreloom-content/src/package.rs:989-1013 | Overwrites the one place holding the identifier exactly when identifier and kind agree, and otherwise changes nothing. |
| `Patches.ContentUnits.ApplyPatches` | crates/loreloom-content/src/package.rs:932-987 | Reports the first faulty patch in (package order, patch identifier) order, or rewrites every definition to the last replacement aimed at it in (package, patch, operation) order, keeping places, identifiers and kinds. |
| `Patches.LatestIsLast` | crates/loreloom-content/src/package.rs:979-985 | The value a definition ends with is the log's last replacement with its identifier, or the original if there is none. |
| `PatchMeanings.FaultlessPatches` | crates/loreloom-content/src/package.rs:932-987 | No patch has a fault if and only if every package of the order is there and each patch targets a dependency's registered definition at an accepted version, by a parsed file of the current schema that replaces it, with its identifier and kind, and nothing else; the fault is otherwise an invalid patch or a file that does not parse. |
| `PatchMeanings.LatestIsLastWriter` | crates/loreloom-content/src/package.rs:945-985 | A definition ends as written by the last package in order that writes it, with the last operation of its last patch by identifier; or it stays as it was if none does. |
| `Patches.RewrittenKeepsIds` | crates/loreloom-content/src/package.rs:989-1013 | Rewriting keeps every place, its identifier, the uniqueness of identifiers and their ownership. |
| `Patches.CompileRegistry` | crates/loreloom-content/src/package.rs:577-579 | Building, patching and building again gives a registry exactly when identifiers are owned and unique, the registry before patching is sound, no patch has a fault and the registry after patching is sound again; it holds each definition's last replacement under the package that defined it. |
| `PatchWitnesses.OnlySecondBuildFails` | crates/loreloom-content/src/registry.rs:1742 | Two concrete packages whose first build is sound and whose patch has no fault; the rule it leaves behind triggers itself, so only the second build fails. |
| `RuleCycles.BuildEdges` | crates/loreloom-content/src/registry.rs:1866-1894 | The edges are exactly those from a rule to the rules listening to an event one of its effects raises. |
| `RuleCycles.TriggersExactly` | crates/loreloom-content/src/registry.rs:1908-1921 | An edge leads from a rule to another exactly when that one listens to the event type by which one of its effects is told: each kind of effect has its own type, an emitted event the one it names. |
| `RuleCycles.NoRuleFeedsItself` | crates/loreloom-content/src/registry.rs:1866-1906 | In accepted definitions no rule has an effect that it listens to. |
| `RuleCycles.CycleSearch.From` | crates/loreloom-content/src/registry.rs:1923-1945 | The search ends; true means a walk from the root returns to itself, false leaves the node finished with all its targets ranked below it. |
| `RuleCycles.ValidateRuleCycles` | crates/loreloom-content/src/registry.rs:1866-1906 | Accepts if and only if no chain of rules triggers itself again, and acceptance comes with a rank that falls along every edge; the rule reported leads into a cycle. |
| `RuleCycles.ChainsAreShort` | crates/loreloom-content/src/registry.rs:1866-1906 | In accepted definitions no chain of triggers repeats a rule or is longer than the number of rules. |
| `Cancellation.StepKeepsSafe` | crates/loreloom-agent/src/cancellation.rs:26-87 | Every atomic step of every thread keeps the waiting polls registered, the lock exclusive, and, once the flag is set with no canceller left, the list empty. |
| `Cancellation.NoLostWakeUp` | crates/loreloom-agent/src/cancellation.rs:26-87 | In every interleaving, once the flag is set and no canceller is between its swap and the end of its drain, the list is empty and every poll that returned pending has been woken. |
| `Cancellation.PollEnds` | crates/loreloom-agent/src/cancellation.rs:66-87 | At the lock a poll that still sees the flag clear goes on to register, and then leaves its waker registered and unserved; one that sees it set registers nothing. |
| `Cancellation.FlagStays` | crates/loreloom-agent/src/cancellation.rs:26-47 | Once a cancel has started, the flag stays set in every interleaving until a reset. |
| `Cancellation.SomethingContinues` | crates/loreloom-agent/src/cancellation.rs:26-87 | Whenever something is in flight, some thread in flight can take its next step. |
| `Cancellation.EveryoneIsServed` | crates/loreloom-agent/src/cancellation.rs:26-87 | If no new poll or cancel starts, then in every order of their steps the threads in flight are never stuck and finish within the work left, and if the flag was set nobody is left waiting. |
| `Cancellation.CancellationToken.Cancel` | crates/loreloom-agent/src/cancellation.rs:26-37 | Uninterrupted, the method does what its atomic steps do: sets the flag and wakes and removes everyone registered, once. |
| `Cancellation.CancellationToken.Poll` | crates/loreloom-agent/src/cancellation.rs:66-87 | Uninterrupted, the method does what its atomic steps do: ready exactly when cancelled, otherwise the waker is registered once. |
| `Cancellation.CancellationToken.Reset` | crates/loreloom-agent/src/cancellation.rs:40-47 | With nothing in flight, resetting clears the flag and the list. |
| `Presenters.StepKeepsCoherent` | crates/loreloom-tui/src/appearance.rs:106-239 | Every step of the UI or the worker keeps all requests and results of the current generation about the current request and the current generation in flight while unfinished. |
| `Presenters.RightPortraitOrInFlight` | crates/loreloom-tui/src/appearance.rs:113-172 | In every interleaving with fewer than 2^64 generations, a shown portrait was rendered from an appearance with the render key of the view on screen, at its size, and an unfinished request has its generation in flight while the worker lives. |
| `Presenters.StaleResultIgnored` | crates/loreloom-tui/src/appearance.rs:191-194 | A result of any other generation changes nothing. |
| `Presenters.StampsWrap` | crates/loreloom-tui/src/appearance.rs:191-205 | Without the bound on generations any result is applied exactly if its generation is a multiple of 2^64 older, and otherwise changes nothing. |
| `Presenters.RequestSettles` | crates/loreloom-tui/src/appearance.rs:113-239 | If the view stays and the worker lives, then in every order of working and draining and whatever the renders give, both end within the work left, and then the request is shown or reported failed. |
| `Presenters.NewViewIsRequested` | crates/loreloom-tui/src/appearance.rs:134-147 | From any coherent state a new, drawable and available view is requested: its key and size, and behind all waiting requests one of the new generation with that appearance and size. |
| `Presenters.NewViewIsShown` | crates/loreloom-tui/src/appearance.rs:113-239 | From there, in every order of working and draining to the end in which every render succeeds, it is shown with its key at its size. |
| `Presenters.DrainedView` | crates/loreloom-tui/src/appearance.rs:113-117 | Draining keeps what is requested; the newest result of the current generation decides whether it failed and what is drawn. |
| `Presenters.Channels.RenderNext` | crates/loreloom-tui/src/appearance.rs:217-239 | One turn of the worker renders only the newest waiting request and sends exactly one result, of its generation: a portrait with its key, size and frames exactly if the key is available and drawing succeeds. |
| `Presenters.WorkBurst` | crates/loreloom-tui/src/appearance.rs:217-239 | A turn of the worker is what its single steps do when nothing interleaves. |
| `Presenters.AppearancePresenter.Clear` | crates/loreloom-tui/src/appearance.rs:106-111 | Clearing starts a new generation with no request, portrait or failure. |
| `Presenters.AppearancePresenter.ApplyResult` | crates/loreloom-tui/src/appearance.rs:191-205 | Applies exactly the results of the current generation. |
| `Presenters.AppearancePresenter.SyncView` | crates/loreloom-tui/src/appearance.rs:113-148 | Drains every result in order; then no appearance or no size to draw clears without failure, an unavailable key clears with one, and any other view is what is requested: if it was not, a request of the new generation with that appearance and size is sent, or fails if the worker is gone. |
| `Presenters.SyncBurst` | crates/loreloom-tui/src/appearance.rs:113-148 | Synchronising the view is what draining and then deciding do as single steps when nothing interleaves. |
| `Presenters.AppearancePresenter.Protocol` | crates/loreloom-tui/src/appearance.rs:150-172 | Draws exactly when the portrait matches the request and nothing failed, and picks the frame whose stretch of the animation holds the elapsed time, or the first frame of an animation without length. |
| `Budgets.Strictest` | crates/loreloom-agent/src/budget.rs:49-67 | Usage respects the strictest budget if and only if it respects every budget given; without any it is the default. |
| `Budgets.ResourceUsage.Merge` | crates/loreloom-agent/src/budget.rs:83-117 | Adds every counter, cut off at its width, and reports a limit that is exceeded exactly when some is. |
| `Budgets.ResourceUsage.ChargeModel` | crates/loreloom-agent/src/budget.rs:119-130 | Goes through exactly within the deadline and below the limit, and then exactly one model call is charged and usage within its budget stays so; otherwise nothing is charged and the reason is the deadline before the limit. |
| `Budgets.ResourceUsage.ChargeTool` | crates/loreloom-agent/src/budget.rs:132-143 | Goes through exactly within the deadline and below the limit, and then exactly one tool call is charged and usage within its budget stays so; otherwise nothing is charged and the reason is the deadline before the limit. |
| `Budgets.ResourceUsage.ChargeResponse` | crates/loreloom-agent/src/budget.rs:145-189 | Adds the bytes read, then one missing report or the tokens reported, a missing total being their sum; it goes through exactly within the deadline and limits, and otherwise names a limit gone beyond. |
| `Budgets.ChargesStayWithin` | crates/loreloom-agent/src/budget.rs:119-198 | A charge that goes through keeps the usage within its budget, and past the deadline nothing is charged. |
| `Runner.CollectEvents` | crates/loreloom-agent/src/runner.rs:391-415 | Collects exactly the events the contents name, in order. |
| `Runner.AdvanceToolRevision` | crates/loreloom-agent/src/runner.rs:338-348 | Advances the revision to the largest one named, never back. |
| `Runner.CommittedEventsExact` | crates/loreloom-agent/src/runner.rs:391-415 | A turn's committed events are exactly those its successful results mention, without duplicates. |
| `Runner.SendRequest` | crates/loreloom-agent/src/runner.rs:127-187 | The first failing check in order (cancellation, encoding, size, deadline, calls, output) ends the turn; otherwise the request held goes out with the smaller of its cap and what remains, or what remains if it has none. |
| `Runner.Ask` | crates/loreloom-agent/src/runner.rs:127-258 | From the top of the loop to the response: every stop has its reason in the last observation, every sent request and every response keep the turn's invariant and trace, and a response uses up one model call, is accounted for, and completes the turn exactly when it makes no calls. |
| `Runner.TakeResponse` | crates/loreloom-agent/src/runner.rs:225-258 | A response is charged, recorded and accounted for within the limits, or ends the turn for the limit it exceeded. |
| `Runner.AdvancedIsLargest` | crates/loreloom-agent/src/runner.rs:338-348 | The revision a tool context moves to is the largest of the one held and those the contents name. |
| `Runner.RunCall` | crates/loreloom-agent/src/runner.rs:260-332 | One tool call gets exactly one result, the executor's in the current revision's context if the tool was offered and an error otherwise, keeps the turn's invariant and trace, and ends the turn for cancellation or a limit before it runs, or for a barrier in its result, and otherwise never. |
| `Runner.RunTurn` | crates/loreloom-agent/src/runner.rs:99-336 | Every run ends; the log of what was sent, answered and executed is determined step by step by the checks, the replies and the executor, and fixes the moment of every check; the turn satisfies its invariant (messages, caps, counters, results, events, revision), the usage is what the replies report, the status is what the last observation calls for, and nothing follows a barrier or a response without calls. |
| `Runner.OfferedCallsRun` | crates/loreloom-agent/src/runner.rs:260-300 | The tools run over a turn are exactly the offered ones among the answered calls, in order; outcomes name their calls, and what is sent or answered is so at a check that saw neither cancellation nor the deadline. |
| `Runner.NothingAfterCancellation` | crates/loreloom-agent/src/runner.rs:99-336 | Moments ascend in the order of the log; at none before the last had the deadline passed, and none saw cancellation unless a response was taken then; so nothing is sent or answered once a check saw either. |
| `Runner.TurnLimits` | crates/loreloom-agent/src/runner.rs:99-336 | At most the limits of model calls sent and tool calls executed, only offered tools executed, context revisions never falling, and events exact and duplicate-free. |
| `Runner.TurnReasons` | crates/loreloom-agent/src/runner.rs:99-336 | A turn's own budget never stops it for the number of turns or rounds. |
| `Runner.EveryCallAnswered` | crates/loreloom-agent/src/runner.rs:247-333 | Every later model request holds, right after each earlier response, exactly one result per tool call, in call order, each the tool's own or an error; it carries the call's identifier if executors answer with it. |
| `Runner.CapsNeverRise` | crates/loreloom-agent/src/runner.rs:170-187 | Each request's output cap is at most what remained when it was sent and at most the cap before it. |
| `TurnMeanings.CapsExactly` | crates/loreloom-agent/src/runner.rs:170-187 | Each cap is the smaller of the one held before and what remained, or what remained if none was held; it is positive if and only if the turn was not started with a cap of zero. |
| `TurnMeanings.SentFits` | crates/loreloom-agent/src/runner.rs:127-187 | Every request sent fitted the context and could be projected, and what remained when it was capped is told by the replies before it. |
| `TurnMeanings.RevisionIsLargest` | crates/loreloom-agent/src/runner.rs:338-348 | The revision a tool runs in is the largest of the start's and those named by successful results before it. |
| `TurnMeanings.OutcomeTells` | crates/loreloom-agent/src/runner.rs:260-332 | Each answered call is reported with the executor's result in that revision, or an error with the call's identifier if it was not offered or failed; the usage counts the answered calls. |
| `TurnMeanings.StatusTells` | crates/loreloom-agent/src/runner.rs:99-336 | A turn completes with the text of a response without calls or on a successful barrier; a cancelled, failed or exhausted one saw the cancellation, the failure or the limit it names. |
| `Orchestrations.OrchestrationState.StartTurn` | crates/loreloom-runtime/src/runtime.rs:1188-1199 | Starts a turn exactly within the deadline and the limit of started turns. |
| `Orchestrations.OrchestrationState.StartRound` | crates/loreloom-runtime/src/runtime.rs:1201-1212 | Starts a round exactly within the deadline and the limit of rounds. |
| `Orchestrations.OrchestrationState.MergeReason` | crates/loreloom-runtime/src/runtime.rs:1224-1234 | Past the deadline nothing is merged; otherwise the usage is added and the first excess reported. |
| `Orchestrations.OrchestrationState.RunAgentTurn` | crates/loreloom-runtime/src/runtime.rs:268-294 | The turn obeys the turn's contract; its usage is merged and checked unless the deadline has passed; the real totals of calls stay within the limit plus one turn's limit, and a refused merge forbids any further turn. |
| `NpcDecisions.FindSettled` | crates/loreloom-runtime/src/runtime.rs:689-717 | Finds the first actor an equal decision was settled with, in an earlier batch or else in this one, and none only if there is none. |
| `NpcDecisions.Generate` | crates/loreloom-runtime/src/runtime.rs:803-996 | The first failing check decides the rejection before an attempt is counted; then at most one turn starts, and a finished one is rejected exactly if the model failed, left no draft or the world refused it. |
| `NpcDecisions.ResolveOne` | crates/loreloom-runtime/src/runtime.rs:677-998 | One decision at its own moment and attempt count: a stale revision is rejected, an equal settled decision reused, and otherwise its target decides, exactly as the checks say; an attempt is counted exactly when every check before it passes; only presets and generations can interrupt the batch. |
| `NpcDecisions.VerdictMeans` | crates/loreloom-runtime/src/runtime.rs:677-998 | A decision is stale exactly if its revision is not the current one; one settled before keeps its actor; a mention has none, a valid existing target is itself, and a character is materialised only within the limit and by a spawn that gave it. |
| `NpcDecisions.GenerationMeans` | crates/loreloom-runtime/src/runtime.rs:803-996 | A generation is refused for the attempts, the policy, the request or the limit of characters exactly in this order, counted as an attempt exactly otherwise, and a model failure is reported exactly if the drafting turn failed. |
| `NpcDecisions.ResolveDecisions` | crates/loreloom-runtime/src/runtime.rs:659-1001 | A finished batch has one outcome per decision in order, each the verdict of the checks at its moment in an ascending course of moments and attempt counts that starts and ends with the batch, nothing after a materialisation but stale rejections, no decision settled before materialised again, and attempts within the limit. |
| `NpcDecisions.AtMostOneMaterialized` | crates/loreloom-runtime/src/runtime.rs:676-1000 | At most one decision of a finished batch is materialised. |
| `NpcDecisions.OutcomeKeepsSerialised` | crates/loreloom-runtime/src/runtime.rs:681-688 | Because a materialisation commits a newer revision, every later decision of the batch is stale. |
| `PlayerInputs.RunRequest` | crates/loreloom-runtime/src/runtime.rs:457-647 | A planned request gets one result for its own actor: cancelled if cancellation is seen, exhausted after a budget failure, rejected exactly for an unregistered actor, stale exactly for a changed profile, scene or context; otherwise one started turn decides, or the budget that forbade it. |
| `PlayerInputs.RunPlan` | crates/loreloom-runtime/src/runtime.rs:456-654 | A finished plan has exactly one result per request in plan order at ascending moments, each settled beforehand or told by how its turn ended, and none exhausted; a budget failure ends the input. |
| `PlayerInputs.StatusesMean` | crates/loreloom-runtime/src/runtime.rs:457-647 | Of a served request: rejected exactly for an unregistered actor, stale exactly for a changed profile, scene or context; a turn that ran is completed exactly with a text, cancelled exactly if it was, and failed otherwise. |
| `PlayerInputs.FinishRound` | crates/loreloom-runtime/src/runtime.rs:300-655 | After a narrator turn a topology change excludes everything else, decisions exclude the plan, and the story is told exactly when nothing is left; the round adds exactly its plan's results and its decisions' verdicts, judged in order between its moment and its end with what was settled and attempted before. |
| `PlayerInputs.HandlePlayerInput` | crates/loreloom-runtime/src/runtime.rs:198-656 | Always ends; budgets stay sound throughout; an answer comes only from a round with nothing left to do, after every earlier round, each begun after the one before ended and after a completed narrator turn, left its plan and decisions and had them carried out with exactly one result each in order, the results as their turns ended, the decisions batch by batch in the context of the batches before; no decision is materialised twice over the whole input; a narrator turn that does not complete ends the input for its own reason. |
| `PlayerInputs.InputBounds` | crates/loreloom-runtime/src/runtime.rs:198-656 | Rounds and started turns stay within their limits, and for limits below 2^32-1 the model and tool calls really made exceed the orchestration limit by at most one turn's limit. |
| `PlayerInputs.RememberMore` | crates/loreloom-runtime/src/runtime.rs:395-401 | Adding a finished batch keeps every materialisation remembered and all materialised decisions distinct. |
| `PlayerInputs.SettlementsExactly` | crates/loreloom-runtime/src/runtime.rs:395-401 | What is remembered of a batch is each materialised decision with the actor it was given. |
| `PendingQueues.PendingWork.QueueTopology` | crates/loreloom-runtime/src/world_service.rs:1129-1160 | A topology change is accepted exactly when authorised at the current revision, nothing else is queued and no different change is; asking for the same one again does not queue it twice. |
| `PendingQueues.PendingWork.QueueDecision` | crates/loreloom-runtime/src/world_service.rs:1669-1777 | A decision is queued, bound to the current revision, exactly when authorised and no topology change is queued; each refusal has its own error. |
| `PendingQueues.PendingWork.QueueTurn` | crates/loreloom-runtime/src/world_service.rs:1778-1820 | A turn request is queued, bound to the current revision, exactly when authorised and no topology change is queued; each refusal has its own error. |
| `PendingQueues.PendingWork.TakeAll` | crates/loreloom-runtime/src/world_service.rs:1113-1127 | Taking the queues returns everything queued, never a topology change together with other work, and leaves them empty. |
| `Numeric.RoundRatio` | crates/loreloom-core/src/numeric.rs:90-109 | The quotient is the nearest integer with ties to even for every sign combination, with every intermediate value within 128 bits. |
| `Numeric.RoundingUnique` | crates/loreloom-core/src/numeric.rs:90-109 | There is only one nearest integer with ties to even. |
| `Numeric.CheckedMul` | crates/loreloom-core/src/numeric.rs:59-66 | For all 64-bit operands the product in millionths is rounded to nearest even, and overflow is reported exactly when that value does not fit. |
| `Numeric.CheckedDiv` | crates/loreloom-core/src/numeric.rs:68-78 | For all 64-bit operands the quotient in millionths is rounded to nearest even, overflow is reported exactly when that value does not fit, and division by zero exactly for a zero divisor. |
| `Numeric.MulIsSymmetric` | crates/loreloom-core/src/numeric.rs:59-66 | Negating an operand negates the rounded product. |
| `Numeric.UnitLaws` | crates/loreloom-core/src/numeric.rs:59-78 | Multiplying or dividing by one changes nothing. |
| `Numeric.Clamp` | crates/loreloom-core/src/numeric.rs:81-83 | The result is the value of the range closest to the input. |
| `PointBudgets.SpendPoints` | crates/loreloom-content/src/registry.rs:1158-1184 | The checked 64-bit loop returns the exact sum, and every early exit is for attributes that exact arithmetic would refuse too. |
| `PointBudgets.ValidateDraftBudget` | crates/loreloom-content/src/registry.rs:1119-1186 | Accepts if and only if the structure is right and the unbounded sum of value minus minimum is at most the allowed points. |
| `PointBudgets.ValidateSpawnConstraints` | crates/loreloom-content/src/registry.rs:1527-1574 | For an authored character, too, accepts if and only if the structure is right and the unbounded sum is at most the allowed points, although the checks run in another order. |
| `PointBudgets.StructuredExactly` | crates/loreloom-content/src/registry.rs:1119-1157 | The structure is right if and only if items and skills are within their numbers, points are not negative, both bounds cover the same attributes the right way round, and everything used is allowed. |
| `Paging.PageLimit` | crates/loreloom-runtime/src/world_service.rs:2978-3005 | A limit from 1 to 64 is taken as it is, a missing one is 32, any other is refused. |
| `Paging.ListPage` | crates/loreloom-runtime/src/world_service.rs:551-605 | A page is given exactly for a valid limit at the world's current revision to an existing character; it holds the first remaining entries up to the limit, and a cursor, the last of them, exactly when more remain. |
| `Paging.RestAfterPage` | crates/loreloom-runtime/src/world_service.rs:563-577 | What follows a full page's cursor is what remained without that page. |
| `Paging.FollowPages` | crates/loreloom-runtime/src/world_service.rs:630-686 | Following the cursor at one revision with any sequence of limits ends, all pages but the last are full, and together they are all owned entries in order. |
| `Paging.EnumerationIsExact` | crates/loreloom-runtime/src/world_service.rs:551-605 | What remains after a cursor, or from the start, is every owned entry beyond it exactly once in ascending identifier order. |
| `Migrations.MigrationRegistry.RegisterMigration` | crates/loreloom-core/src/record.rs:410-417 | A step is stored exactly when it moves up one version and its start is free. |
| `Migrations.MigrationRegistry.RegisterRecordType` | crates/loreloom-core/src/record.rs:398-408 | A record type is registered exactly once. |
| `Migrations.MigrationRegistry.Upgrade` | crates/loreloom-core/src/record.rs:419-449 | The rewriting loop gives the migrated payload at the current schema, keeping type, identity, revision and provenance, or the first error on the way; an unknown type and a newer schema are refused exactly. |
| `Migrations.MigratedExactly` | crates/loreloom-core/src/record.rs:419-449 | An upgrade succeeds exactly along a chain of registered steps version by version, each accepted; otherwise it fails at the first version without a step or whose step fails or is not accepted. |
| `Migrations.MigrationComposes` | crates/loreloom-core/src/record.rs:419-449 | Upgrading in two stages is upgrading at once. |
| `Migrations.MigrationIsStable` | crates/loreloom-core/src/record.rs:410-449 | Registering further steps never changes an upgrade that succeeded. |
| `Migrations.MigrationRegistry.UpgradeIsIdempotent` | crates/loreloom-core/src/record.rs:419-449 | Upgrading an upgraded envelope gives it back. |

## Left out

- RuntimeWorlds.RuntimeWorld.ApplyCommand: requires of a commit that takes effect that it deletes only records the save holds, which every execution on a world that stands on the history does; what happens otherwise is said by `RuntimeWorlds.CommitLoads`, and the commands after it are not followed. A request no replay accepts is not followed either.
- SaveStores.SaveStore.Load: which of the integrity errors is reported is not told apart; reading the tables at different moments is covered by `SaveLoading.TornLoadNeverMixes` and `SaveLoading.TornLoadSucceeds`.
- SaveStores.SaveStore.Checkpoint: of the errors before its second transaction it is only said that they are errors.
- SaveStores.SaveStore.AdoptContentLocks: errors are told apart from success but not from one another.
- SaveStores.SaveStore.Connect: the database offers no other failure than a head that does not match.
- Locks.ValidateLock: of the faults only duplicate mods are pinned to their own error.
- Locks.SplitWorldLock: all faults are one error, as in the program.
- PointBudgets.ValidateDraftBudget: when several faults are present only the points error is pinned down.
- Patches.ContentUnits.ApplyPatches: after a faulty patch the documents are only known to keep their shape; the program discards them.
- Patches.CompileRegistry: definitions and rules are read by parameters: each definition's own check, the check of references and the reading of rules are arbitrary, and rule cycles are searched by `RuleCycles.ValidateRuleCycles`; package identities and document schemas are not checked, and the lock built and compared afterwards is `PackageLocks.BuildLock`.
- Packages.ValidateManifest: engine version, pack identifier, capabilities, prompt paths and patch file paths are not part of the model.
- Presenters.AppearancePresenter.Protocol: durations are unbounded, so the saturation of their sum is not modelled.
- Paging.ListPage: what a summary shows of an item or a skill, and errors from looking up its definition, are not part of the model.
- PlayerInputs.HandlePlayerInput: transcripts, snapshots, notices, tool activity and the texts of requests and narration are not part of the model; any service call may fail.
- Cancellation.CancellationToken.Reset: polls of the stopped turn that are still registered are abandoned, as in the program; a reset while something is in flight is not modelled.
- The database driver, asynchronous plumbing and file reading: each transaction is one atomic step.
- JSON, TOML, UUIDs and SHA-256: replaced by inverse pairs, ordered identifiers and perfect digests.
- The rules of the game world, bootstrap and gameplay execution: used through a contract.
- Language model bridges, tool schemas, prompts, failure diagnostics and token estimates: arbitrary inputs.
- Terminal drawing, editing, key handling, pixel blending and image decoding.
- What field-by-field validators of definitions and records look at, and view projections.
- Tool execution inside one turn is sequential, so the separate locks of the pending queues are not interleaved.
