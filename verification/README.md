# Saga Forge: a verified model

Saga Forge runs sagas: long-lived processes whose steps react to domain events, send commands, and wait. This project
models its two state machines, and the contract between them, and proves what they promise.

**The Postgres save protocol.** `Tables`, `SequenceNumbers` and `LifecycleHistory` give the four tables, the number a
save reads, the diff of two snapshots into history entries and the forward-transition check. `PostgresStorage` is the
provider as one caller meets it. `ConcurrentSaves` is the protocol as statements of any number of concurrent
transactions (READ COMMITTED, row locks held to commit or rollback, deletes and context writes in between), and
`SaveGuarantees` proves, for every interleaving, that the committed tables are those of the committed saves run one after
the other; `SaveProgress` proves that saves come to their end.

**The saga-scoped unit of work.** `UnitOfWork` gives one unit of work as a function of what client code does; client code
is a finite tree of effects, chosen by an oracle that sees everything there is when a step starts, so a result for every
oracle is a result for every step, handler, loader and saver. `ClientCode`, `UnitGuarantees`, `UnitOutcomes`,
`EventConservation`, `InProcessDelivery`, `CaughtFailures` and `StepRecords` prove what such code can and cannot do. `AggregateStore` is the
aggregate store on the heap, where aggregates are mutable objects shared with client code, snapshotted, restored and
copied; `AggregateModel` says on values which object is stored where and in what state. `HarnessUnitOfWork`,
`SagaLifecycle` and `InMemoryStorage` are the objects themselves, each method proved to do what the functions say while
client code changes aggregates in place. `Harness` and `SagaTestHarness` deliver events to every saga type, and, if so
configured, what the units of work dispatch again, nested in the dispatch; they keep the invariant of every reachable
state, and resume from captured state in a harness with stores of its own. Publishing an event outside a unit of work
delivers it, publishing inside one records it. `SagaContext` is about the maps a context shares with its callers.

**Where they meet.** `EngineAndStorage` runs the snapshots a unit of work leaves against the storage's forward check, and
the two storage providers against each other. `StepsCodec` and `JsonCodec` are the columns' codecs. `Booking`,
`BookingSteps`, `BookingSafety`, `BookingProtocol`, `BookingOutcomes` and `InventoryObjects` are the booking saga as a
concrete protocol over all of it, safe whatever fails, and doing what it is there for when nothing does. `Scanner`,
`ScannerGuarantees`, `ScannerRules` and `ReflectiveAnnotationScanner` are the whole-model validation.

Assumptions the theorems name: saga ids are supplied once; step method names are distinct within a saga; the initial stores
satisfy the invariants, each aggregate stored under its own type and identifier; a copier returns a fresh equal object, and
no participant's snapshot or restore throws; what is thrown while an event's identifier is read is a RuntimeException; an
existing instance passed to a unit of work is the stored one. A unit of work, or a delivery, is observed for a given number
of step invocations, and deliveries nested in each other to a given depth: a step may go on recording its own trigger for
ever, and every result is about what finishes, however many steps and however deep a nesting it takes.

Some promises turn out to need a condition; both sides of each are proved.

- History numbering starts at 0 only if no delete removes the saga between reading the number and the upsert
  (`SaveGuarantees.NumberingStartsAtZeroIff`, with an interleaving in `DeleteCanShiftNumbering`); consecutive and unique
  numbering always holds.
- The snapshot of a committed unit of work passes the storage's forward check iff no step completed before ran again and,
  the last time, recorded events of other aggregates or in another order (`EngineAndStorage.CommittedForwardIff`, with such
  a unit of work in `RunningElsewhereIsNotForward`).
- The class comment of HarnessUnitOfWork promises a rollback on any exception. A failing send marks the unit of work, so
  that catching its exception does not help; a failing record marks it only if the identifier of an annotated event cannot
  be read. An event that is not annotated is refused before the recorder sees it, and the accessor of an association
  property is called after the event was recorded and outside the recorder's try block: a step that catches either
  exception commits, and in the second case the event is dispatched (`CaughtFailures.RefusedRecordCommits`,
  `BrokenAccessorCommits`). Every failure rolls back, for all client code, iff no recorded event is of these two kinds
  (`EveryFailureRollsBackIff`).
- A context record shares a map with its caller iff the caller gave it that map, as a field of a map at the call that puts
  it, or as the value of an update: a put copies one level deep, an update not at all (`SagaContext.SharedIffCallersGave`,
  and `NothingSharedIffFlat` for when nothing is ever shared; `InnerMapIsShared` and `UpdatedMapIsShared` are one of each).
- `requireSupported` accepts what `freeze` hands back unchanged, except for non-finite doubles and null keys, which `freeze`
  lets pass (`JsonCodec.SupportedIffFrozenUnchanged`, `NullKeyIsFrozenButRefused`).
- A rollback restores, and a harness rebuilt from captured state is apart from its original, as far as aggregate types have
  a copier: with one for every stored type nothing shows (`SagaTestHarness.SagaTestHarness.Resume`,
  `AggregateStore.InMemoryAggregateStore.SnapshotSeparates`), and any stored aggregate without one can be changed from the
  other side (`ResumedChangesUncopied`, `UncopiedChangeSurvives`); for rollbacks, `UnitOutcomes.EveryRollbackUndoesIff` is
  the exact condition.

## Model

| member | source | states |
|---|---|---|
| JsonCodec.SupportedIffFrozenUnchanged | saga-forge-storage-postgres/src/main/java/io/github/gkosharovdev/sagaforge/storage/postgres/JsonCodec.java:115-180 | at any nesting depth, requireSupported accepts a value iff freeze hands it back unchanged, every double in it is finite and no map in it has a null key |
| JsonCodec.NullKeyIsFrozenButRefused | saga-forge-storage-postgres/src/main/java/io/github/gkosharovdev/sagaforge/storage/postgres/JsonCodec.java:130-168 | any map whose keys are strings or null and whose values are supported is handed back unchanged by freeze, and refused by requireSupported iff one of its keys is null |
| JsonCodec.SupportedIffAdmissible | saga-forge-storage-postgres/src/main/java/io/github/gkosharovdev/sagaforge/storage/postgres/JsonCodec.java:115-150 | accepted are exactly strings, booleans, Integers, Longs, finite Doubles, and maps with String keys and lists of such values, at any depth |
| JsonCodec.FrozenIffFreezable | saga-forge-storage-postgres/src/main/java/io/github/gkosharovdev/sagaforge/storage/postgres/JsonCodec.java:152-180 | freeze takes exactly strings, booleans, Integers, Longs, Doubles, and maps whose keys are strings or null and lists of such values, at any depth |
| StepsCodec.ToPlain | saga-forge-storage-postgres/src/main/java/io/github/gkosharovdev/sagaforge/storage/postgres/SagaInstanceRows.java:152-161 | the list names each reference's type and id, in order, and the JSON layer accepts it |
| StepsCodec.EncodeSteps | saga-forge-storage-postgres/src/main/java/io/github/gkosharovdev/sagaforge/storage/postgres/SagaInstanceRows.java:118-127 | one object per step with its status name and references, whatever the map's order, all of it accepted by the JSON layer |
| StepsCodec.AggregatesFromPlain | saga-forge-storage-postgres/src/main/java/io/github/gkosharovdev/sagaforge/storage/postgres/SagaInstanceRows.java:169-182 | decodes every element in order, or throws iff one has not the shape of a reference |
| StepsCodec.DecodeSteps | saga-forge-storage-postgres/src/main/java/io/github/gkosharovdev/sagaforge/storage/postgres/SagaInstanceRows.java:129-145 | decodes every entry, or throws iff one is malformed or not a record the constructor accepts |
| StepsCodec.StepsRoundTrip | saga-forge-storage-postgres/src/main/java/io/github/gkosharovdev/sagaforge/storage/postgres/SagaInstanceRows.java:118-182 | decoding any encoding of a step map gives the map back |
| StepsCodec.StepsRoundTripReordered | saga-forge-storage-postgres/src/main/java/io/github/gkosharovdev/sagaforge/storage/postgres/SagaInstanceRows.java:118-182 | also when the JSON layer hands the encoding back with the entries of its objects in another order, at any depth |
| StepsCodec.DecodedStepIff | saga-forge-storage-postgres/src/main/java/io/github/gkosharovdev/sagaforge/storage/postgres/SagaInstanceRows.java:129-145 | what a stored object decodes to, if anything: the record whose status it names, with its references deduplicated, none if the step has not run |
| StepsCodec.DecodedEntriesIff | saga-forge-storage-postgres/src/main/java/io/github/gkosharovdev/sagaforge/storage/postgres/SagaInstanceRows.java:129-145 | an object decodes iff each key is a string and each value decodes, and then to the record of the last entry of each name |
| Spi.DeduplicatedKeepsOrder | saga-forge-core/src/main/java/io/github/gkosharovdev/sagaforge/core/spi/StepRecord.java:36 | the touched aggregates kept are in the order of their first recording |
| Spi.DeduplicatedIdentity | saga-forge-core/src/main/java/io/github/gkosharovdev/sagaforge/core/spi/StepRecord.java:36 | deduplication changes a list iff it has a duplicate, so doing it again on decoding loses nothing |
| Spi.NewStepRecord | saga-forge-core/src/main/java/io/github/gkosharovdev/sagaforge/core/spi/StepRecord.java:20-37 | throws iff aggregates are given for a step that has not run; otherwise a valid record of that status with the same aggregates |
| LifecycleHistory.RequireForwardTransition | saga-forge-storage-postgres/src/main/java/io/github/gkosharovdev/sagaforge/storage/postgres/LifecycleHistoryDerivation.java:86-111 | passes iff every completed step keeps its completion and touched list and a terminal status is unchanged; otherwise names the first violated rule, steps in name order, status last |
| LifecycleHistory.ForwardFromEveryEarlier | saga-forge-storage-postgres/src/main/java/io/github/gkosharovdev/sagaforge/storage/postgres/LifecycleHistoryDerivation.java:86-111 | in a chain of forward transitions every snapshot is forward of every earlier one |
| LifecycleHistory.NewlyCompletedSteps | saga-forge-storage-postgres/src/main/java/io/github/gkosharovdev/sagaforge/storage/postgres/LifecycleHistoryDerivation.java:117-127 | the names completed now and not before, ascending |
| LifecycleHistory.Derive | saga-forge-storage-postgres/src/main/java/io/github/gkosharovdev/sagaforge/storage/postgres/LifecycleHistoryDerivation.java:41-68 | the loop appends exactly the specified diff of the two snapshots, whose entries DerivedTells and DerivedWellFormed describe field by field |
| LifecycleHistory.DerivedTells | saga-forge-storage-postgres/src/main/java/io/github/gkosharovdev/sagaforge/storage/postgres/LifecycleHistoryDerivation.java:41-68 | of every derived entry: CREATED carries the snapshot's creation time and every other kind its last modification; a step entry the touched list of that step, completed now and not before; a COMPLETED entry the outcome and a FAILED one the failure of the snapshot, and no other kind either |
| LifecycleHistory.DerivedWellFormed | saga-forge-core/src/main/java/io/github/gkosharovdev/sagaforge/core/spi/SagaLifecycleEntry.java:49-78 | every derived entry satisfies the entry's own kind-dependent invariant; numbers are consecutive and step entries strictly ascending by name |
| LifecycleHistory.HistoryFaithful | saga-forge-storage-postgres/src/main/java/io/github/gkosharovdev/sagaforge/storage/postgres/LifecycleHistoryDerivation.java:41-68 | along any forward chain: CREATED once and first, each step at most once with the touched list it still has, first-completed plus recorded steps exactly those completed now, one terminal entry of the right kind iff the status is terminal |
| LifecycleHistory.HistoryTells | saga-forge-storage-postgres/src/main/java/io/github/gkosharovdev/sagaforge/storage/postgres/LifecycleHistoryDerivation.java:41-68 | along any chain of snapshots, every entry of the history tells so of one of them, against the one before it |
| LifecycleHistory.SquashingKeepsFacts | saga-forge-storage-postgres/src/main/java/io/github/gkosharovdev/sagaforge/storage/postgres/LifecycleHistoryDerivation.java:41-68 | the diffs a to b and b to c record, each once, exactly the completions and terminal kind that the diff a to c records |
| SequenceNumbers.NextNumberIsNext | saga-forge-storage-postgres/src/main/java/io/github/gkosharovdev/sagaforge/storage/postgres/PostgresStorageProvider.java:73-74 | the number read is 0 with no rows and otherwise one above every row's |
| ConcurrentSaves.RunInv | saga-forge-storage-postgres/src/main/java/io/github/gkosharovdev/sagaforge/storage/postgres/PostgresStorageProvider.java:118-139 | the protocol invariant over row locks, snapshots read and uncommitted writes holds after every interleaving of statements |
| ConcurrentSaves.NoHistoryCollision | saga-forge-storage-postgres/src/main/java/io/github/gkosharovdev/sagaforge/storage/postgres/PostgresStorageProvider.java:215-234 | a save that reaches its history insert never meets a committed or own row of the same number |
| ConcurrentSaves.CommitIsUndisturbedSave | saga-forge-storage-postgres/src/main/java/io/github/gkosharovdev/sagaforge/storage/postgres/PostgresStorageProvider.java:118-139 | whatever ran in between, a committing save writes just what an undisturbed save on the tables at its commit would, and passes the check there |
| SaveGuarantees.Serializable | saga-forge-storage-postgres/src/main/java/io/github/gkosharovdev/sagaforge/storage/postgres/PostgresStorageProvider.java:118-139 | after every interleaving the committed tables are those of the committed saves, deletes and context writes replayed one by one in commit order, each legal |
| SaveGuarantees.HistoryIsTheCommittedChain | saga-forge-storage-postgres/src/main/java/io/github/gkosharovdev/sagaforge/storage/postgres/PostgresStorageProvider.java:118-139 | for every interleaving and stored saga: the loaded instance is the last committed snapshot, the history rows are the diffs concatenated along the committed snapshots from none, numbered without gap or duplicate, from 0 if the saga was never deleted |
| SaveGuarantees.IndexIsTheCommittedChain | saga-forge-storage-postgres/src/main/java/io/github/gkosharovdev/sagaforge/storage/postgres/PostgresStorageProvider.java:247-264 | after every interleaving the association rows of a saga are exactly the associations of its last committed snapshot |
| SaveGuarantees.CommittedHistoryFaithful | saga-forge-storage-postgres/src/main/java/io/github/gkosharovdev/sagaforge/storage/postgres/PostgresStorageProvider.java:118-139 | that committed history is faithful to the committed snapshot |
| SaveGuarantees.CommittedHistoryTells | saga-forge-storage-postgres/src/main/java/io/github/gkosharovdev/sagaforge/storage/postgres/PostgresStorageProvider.java:118-139 | after every interleaving each committed history row carries the time, outcome step, failure and touched list of one of the saga's committed snapshots |
| SaveGuarantees.RolledBackFor | saga-forge-storage-postgres/src/main/java/io/github/gkosharovdev/sagaforge/storage/postgres/PostgresStorageProvider.java:118-139 | whichever statement made a transaction roll back, its reason is what that statement met: a transition not forward at the read, a concurrent first save at the upsert, a taken number at a history insert, or the caller |
| SaveGuarantees.NoLostUpdate | saga-forge-storage-postgres/src/main/java/io/github/gkosharovdev/sagaforge/storage/postgres/PostgresStorageProvider.java:123-127 | no later committed save loses a completed step, changes its touched list or leaves a terminal status |
| SaveGuarantees.OnlyCommittedSavesLeaveTraces | saga-forge-storage-postgres/src/main/java/io/github/gkosharovdev/sagaforge/storage/postgres/PostgresStorageProvider.java:302-318 | the log holds exactly one save for each committed transaction and none for one that rolled back, such as a losing first save |
| SaveGuarantees.NumberingStartsAtZeroIff | saga-forge-storage-postgres/src/main/java/io/github/gkosharovdev/sagaforge/storage/postgres/PostgresStorageProvider.java:128-130 | the history starts at the number the creating save read, which is 0 iff it read it while no instance row was committed |
| SaveGuarantees.DeleteCanShiftNumbering | saga-forge-storage-postgres/src/main/java/io/github/gkosharovdev/sagaforge/storage/postgres/PostgresStorageProvider.java:128-130 | a concrete interleaving with a delete between the number read and the upsert after which the numbering does not start at 0 |
| SaveProgress.UndisturbedSave | saga-forge-storage-postgres/src/main/java/io/github/gkosharovdev/sagaforge/storage/postgres/PostgresStorageProvider.java:118-139 | in every reachable state a save that finds its row not locked, run on its own, ends: rolled back with nothing written iff it is not a forward transition or its state cannot be stored, and otherwise committed with exactly the writes of the provider's save, numbered from the next free number |
| SaveProgress.NoDeadlock | saga-forge-storage-postgres/src/main/java/io/github/gkosharovdev/sagaforge/storage/postgres/PostgresStorageProvider.java:118-139 | in every reachable state, for a save that has not ended, it, or the save of the same saga that holds the row's lock, can go on with a statement of its own and comes nearer to its end by it |
| SaveProgress.AbortEnds | saga-forge-storage-postgres/src/main/java/io/github/gkosharovdev/sagaforge/storage/postgres/PostgresStorageProvider.java:302-325 | a failure from outside ends any save that has not ended: nothing is written, it keeps no lock, and no other save is touched |
| PostgresStorage.PostgresStorageProvider.Save | saga-forge-storage-postgres/src/main/java/io/github/gkosharovdev/sagaforge/storage/postgres/PostgresStorageProvider.java:118-139 | stores iff the state is supported and the snapshot is forward; then exactly the written rows, named table by table; otherwise the tables are unchanged, and unsupported state or a conflict is reported iff it is one |
| PostgresStorage.PostgresStorageProvider.NextSequenceNumber | saga-forge-storage-postgres/src/main/java/io/github/gkosharovdev/sagaforge/storage/postgres/PostgresStorageProvider.java:205-213 | the next number of the saga's history rows |
| PostgresStorage.PostgresStorageProvider.ReplaceAssociations | saga-forge-storage-postgres/src/main/java/io/github/gkosharovdev/sagaforge/storage/postgres/PostgresStorageProvider.java:247-264 | the saga's association rows become its associations, whatever the order of inserts; other sagas' rows stay |
| PostgresStorage.PostgresStorageProvider.InsertHistory | saga-forge-storage-postgres/src/main/java/io/github/gkosharovdev/sagaforge/storage/postgres/PostgresStorageProvider.java:215-234 | every entry becomes a row under its saga and number |
| PostgresStorage.PostgresStorageProvider.Delete | saga-forge-storage-postgres/src/main/java/io/github/gkosharovdev/sagaforge/storage/postgres/PostgresStorageProvider.java:179-190 | removes the instance and, by cascade, its association, context and history rows; nothing else |
| PostgresStorage.PostgresStorageProvider.FindById | saga-forge-storage-postgres/src/main/java/io/github/gkosharovdev/sagaforge/storage/postgres/PostgresStorageProvider.java:146-152 | the stored snapshot, associations included |
| PostgresStorage.PostgresStorageProvider.FindByAssociation | saga-forge-storage-postgres/src/main/java/io/github/gkosharovdev/sagaforge/storage/postgres/PostgresStorageProvider.java:160-169 | through the index rows: every stored instance with that association, each once, in saga id order, and no other |
| PostgresStorage.SaveThenFind | saga-forge-storage-postgres/src/main/java/io/github/gkosharovdev/sagaforge/storage/postgres/PostgresStorageProvider.java:118-152 | what was saved is what is found, associations included |
| PostgresStorage.ContentsWritten | saga-forge-storage-postgres/src/main/java/io/github/gkosharovdev/sagaforge/storage/postgres/PostgresStorageProvider.java:118-139 | a save replaces one stored instance and no other |
| PostgresStorage.ContentsDeleted | saga-forge-storage-postgres/src/main/java/io/github/gkosharovdev/sagaforge/storage/postgres/PostgresStorageProvider.java:179-190 | a delete removes one stored instance and no other |
| EngineAndStorage.SavesAlike | saga-forge-core/src/test/java/io/github/gkosharovdev/sagaforge/core/execution/harness/InMemoryStorageProvider.java:30-35 | a save keeps the in-memory provider and the tables holding the same instances |
| EngineAndStorage.DeletesAlike | saga-forge-core/src/test/java/io/github/gkosharovdev/sagaforge/core/execution/harness/InMemoryStorageProvider.java:61-64 | so does a delete |
| EngineAndStorage.LookupsAlike | saga-forge-core/src/test/java/io/github/gkosharovdev/sagaforge/core/execution/harness/InMemoryStorageProvider.java:44-58 | the full scan in memory and the index lookup find the same instances, each once |
| InMemoryStorage.InMemoryStorageProvider.FindByAssociation | saga-forge-core/src/test/java/io/github/gkosharovdev/sagaforge/core/execution/harness/InMemoryStorageProvider.java:44-58 | the stored instances with that association, in insertion order |
| InMemoryStorage.PutInPlace | saga-forge-core/src/test/java/io/github/gkosharovdev/sagaforge/core/execution/harness/InMemoryStorageProvider.java:34 | saving a known id changes no other entry and not the order |
| InMemoryStorage.PutNew | saga-forge-core/src/test/java/io/github/gkosharovdev/sagaforge/core/execution/harness/InMemoryStorageProvider.java:34 | saving an unknown id appends the instance after all the others |
| SagaLifecycle.HarnessSagaLifecycle.StartSaga | saga-forge-core/src/test/java/io/github/gkosharovdev/sagaforge/core/execution/harness/HarnessSagaLifecycle.java:59-83 | rejected iff a stored instance of that saga type has the association value and a status other than COMPLETED and FAILED, and then nothing is stored; otherwise stores a CREATED instance with every step not run, field by field |
| SagaLifecycle.HarnessSagaLifecycle.RequireActive | saga-forge-core/src/test/java/io/github/gkosharovdev/sagaforge/core/execution/harness/HarnessSagaLifecycle.java:125-132 | the stored instance iff it is there and not terminal |
| SagaLifecycle.HarnessSagaLifecycle.StepCompleted | saga-forge-core/src/test/java/io/github/gkosharovdev/sagaforge/core/execution/harness/HarnessSagaLifecycle.java:86-100 | completes a known step of an active instance, at the given time, keeping every other field and step; otherwise throws and stores nothing |
| SagaLifecycle.HarnessSagaLifecycle.AdvanceSaga | saga-forge-core/src/test/java/io/github/gkosharovdev/sagaforge/core/execution/harness/HarnessSagaLifecycle.java:103-107 | an active instance becomes RUNNING at the given time and keeps every other field; otherwise nothing is stored |
| SagaLifecycle.HarnessSagaLifecycle.CompleteSaga | saga-forge-core/src/test/java/io/github/gkosharovdev/sagaforge/core/execution/harness/HarnessSagaLifecycle.java:110-115 | an active instance becomes COMPLETED with the outcome at the given time and keeps every other field; otherwise nothing is stored |
| SagaLifecycle.HarnessSagaLifecycle.FailSaga | saga-forge-core/src/test/java/io/github/gkosharovdev/sagaforge/core/execution/harness/HarnessSagaLifecycle.java:118-123 | an active instance becomes FAILED with the very failure given, no outcome, at the given time, and keeps every other field; otherwise nothing is stored |
| ClientCode.CodeExtends | saga-forge-core/src/test/java/io/github/gkosharovdev/sagaforge/core/execution/harness/HarnessUnitOfWork.java:154-174 | arbitrary client code can change client state, write context, append recorded events with their touched references, queue the reacting ones in order, and cause a rollback once; nothing else of the unit of work |
| ClientCode.RecordMarksIff | saga-forge-core/src/main/java/io/github/gkosharovdev/sagaforge/core/event/DomainEvents.java:41-87 | a record from client code fails iff the event is not annotated, its identifier cannot be read, or the accessor of its association property throws; it marks the unit of work only in the second case, and only in the first two is the event not recorded |
| ClientCode.SendMarks | saga-forge-core/src/test/java/io/github/gkosharovdev/sagaforge/core/execution/harness/HarnessCommandGateway.java:202-226 | after a send the unit is rollback-only iff it was before, the send threw, or underneath it a send failed or an event with an unreadable identifier was recorded, caught or not |
| ClientCode.CodeMarks | saga-forge-core/src/test/java/io/github/gkosharovdev/sagaforge/core/execution/harness/HarnessUnitOfWork.java:137-174 | the same for any client code, at any nesting depth |
| ClientCode.HandledThroughStore | saga-forge-core/src/test/java/io/github/gkosharovdev/sagaforge/core/execution/harness/HarnessCommandGateway.java:202-226 | an instance command whose loader gets a stored aggregate, whose handler changes that very object and whose saver stores it changes the state under its key and nothing else |
| ClientCode.SendThrows | saga-forge-core/src/test/java/io/github/gkosharovdev/sagaforge/core/execution/harness/HarnessCommandGateway.java:202-270 | which exception a send throws, command by command and route by route, in the order the gateway checks |
| ClientCode.InTurn | saga-forge-core/src/test/java/io/github/gkosharovdev/sagaforge/core/execution/harness/HarnessUnitOfWork.java:225-234 | effects run in order, each on what the earlier ones left, up to the first exception not caught |
| UnitGuarantees.PollQueue | saga-forge-core/src/test/java/io/github/gkosharovdev/sagaforge/core/execution/harness/HarnessUnitOfWork.java:225-233 | taking the next event keeps delivery first in, first out over the reacting recorded events |
| UnitGuarantees.CompleteStepInstance | saga-forge-core/src/test/java/io/github/gkosharovdev/sagaforge/core/execution/harness/HarnessUnitOfWork.java:236-241 | completing a step adds it to the completed steps and leaves every other instance alone; the unit ends iff it is an end step |
| UnitGuarantees.StepRanOk | saga-forge-core/src/test/java/io/github/gkosharovdev/sagaforge/core/execution/harness/HarnessUnitOfWork.java:225-242 | one pass through the work loop keeps the loop's invariant, or has thrown with queue and context still accounted for |
| UnitGuarantees.StepThrows | saga-forge-core/src/test/java/io/github/gkosharovdev/sagaforge/core/execution/harness/HarnessUnitOfWork.java:225-242 | a pass throws what the step threw, or else the cause that marked the unit of work; only otherwise is the step recorded completed |
| UnitOutcomes.Atomicity | saga-forge-core/src/test/java/io/github/gkosharovdev/sagaforge/core/execution/harness/HarnessUnitOfWork.java:181-269 | for every client code: on commit the completed steps are the old ones plus exactly the steps run, COMPLETED with the last step as outcome iff it is an end step and RUNNING otherwise, no other instance changed; on rollback participants are as before, every context write is kept, and storage differs only in this saga being FAILED at the last step run, with its old step records; a rejected start changes nothing |
| UnitOutcomes.StartRejectedIff | saga-forge-core/src/test/java/io/github/gkosharovdev/sagaforge/core/execution/harness/HarnessSagaLifecycle.java:64-68 | a unit of work that starts a saga is rejected iff a stored instance of that saga type has the association value and a status other than COMPLETED and FAILED |
| UnitOutcomes.BaseInstanceIs | saga-forge-core/src/test/java/io/github/gkosharovdev/sagaforge/core/execution/harness/HarnessSagaLifecycle.java:70-82 | the instance a unit of work works on: the existing one, or a CREATED one of the given id, type, association and time with every step not run |
| EventConservation.UndeliveredInOrder | saga-forge-core/src/test/java/io/github/gkosharovdev/sagaforge/core/execution/harness/HarnessUnitOfWork.java:194-205 | what is dispatched or discarded is the recorded events at the places not delivered, in recording order |
| EventConservation.Partition | saga-forge-core/src/test/java/io/github/gkosharovdev/sagaforge/core/execution/harness/HarnessUnitOfWork.java:194-205 | delivered and undelivered events together are the recorded ones, each once |
| EventConservation.EventsConserved | saga-forge-core/src/test/java/io/github/gkosharovdev/sagaforge/core/execution/harness/HarnessUnitOfWork.java:154-258 | in every finished unit of work each recorded event is delivered in-process, dispatched or discarded, exactly once; delivery is first in, first out; a rollback dispatches nothing; a commit without an end step has delivered every reacting event |
| EventConservation.CommitsIffClean | saga-forge-core/src/test/java/io/github/gkosharovdev/sagaforge/core/execution/harness/HarnessUnitOfWork.java:181-247 | a unit of work commits iff its start is not rejected, its saga can be constructed, and every step it comes to returns without a failing send, or a record of an event with an unreadable identifier, underneath, caught or not |
| InProcessDelivery.RecordingQueues | saga-forge-core/src/test/java/io/github/gkosharovdev/sagaforge/core/execution/harness/HarnessUnitOfWork.java:154-174 | recording an annotated event with a readable identifier queues it, with its step, iff the model has a step for its class other than the start step and the event's value of that step's property equals the instance's association of that name; it throws iff reading that value does |
| InProcessDelivery.RecordThrows | saga-forge-core/src/test/java/io/github/gkosharovdev/sagaforge/core/execution/harness/HarnessUnitOfWork.java:154-174 | which exception a record throws; only an annotated event with an identifier that cannot be read marks the unit of work, and only as its first cause |
| InProcessDelivery.DeliveredIffOurs | saga-forge-core/src/test/java/io/github/gkosharovdev/sagaforge/core/execution/harness/HarnessUnitOfWork.java:277-286 | in every finished unit of work each event delivered in-process carries exactly the instance's association value; after a commit without an end step exactly those were delivered and exactly the others dispatched |
| InProcessDelivery.StepsRunAreTriggered | saga-forge-core/src/test/java/io/github/gkosharovdev/sagaforge/core/execution/harness/HarnessUnitOfWork.java:225-242 | the first step run is the triggering one, and each later one is the model's step for the class of the event delivered to it |
| EventConservation.RollbackOnlyIsInescapable | saga-forge-core/src/test/java/io/github/gkosharovdev/sagaforge/core/execution/harness/HarnessUnitOfWork.java:234-246 | once a send failed or an event with an unreadable identifier was recorded, whatever was caught: no commit, no step recorded completed, nothing dispatched, client state restored |
| CaughtFailures.EveryFailureMarksIff | saga-forge-core/src/test/java/io/github/gkosharovdev/sagaforge/core/execution/harness/HarnessUnitOfWork.java:154-174 | for all client code that records only given events: every failing send or record leaves the unit of work rollback-only, caught or not, iff each event is annotated and, unless its identifier cannot be read, no accessor throws that the decision on in-process delivery calls |
| CaughtFailures.EveryFailureRollsBackIff | saga-forge-core/src/test/java/io/github/gkosharovdev/sagaforge/core/execution/harness/HarnessUnitOfWork.java:181-247 | for all client code that records only given events: no unit of work with a failing send or record commits, caught or not, iff the same holds of each event |
| CaughtFailures.CaughtFailureCommits | saga-forge-core/src/test/java/io/github/gkosharovdev/sagaforge/core/execution/harness/HarnessUnitOfWork.java:154-191 | for every event that fails the condition, the step that records it and catches the exception gets a unit of work that commits; an event whose accessor threw is dispatched |
| CaughtFailures.RefusedRecordCommits | saga-forge-core/src/main/java/io/github/gkosharovdev/sagaforge/core/event/DomainEvents.java:41-87 | a concrete unit of work whose step catches the refusal of an un-annotated event: it commits and nothing was recorded |
| CaughtFailures.BrokenAccessorCommits | saga-forge-core/src/test/java/io/github/gkosharovdev/sagaforge/core/execution/harness/HarnessUnitOfWork.java:277-286 | a concrete unit of work whose step catches what an association accessor threw: it commits and the event is dispatched |
| EventConservation.StepTouches | saga-forge-core/src/test/java/io/github/gkosharovdev/sagaforge/core/execution/harness/HarnessUnitOfWork.java:233-236 | a completed step is recorded with the deduplicated aggregates of exactly the events recorded while it ran |
| StepRecords.CommittedRecords | saga-forge-core/src/test/java/io/github/gkosharovdev/sagaforge/core/execution/harness/HarnessUnitOfWork.java:225-242 | after a commit every step run is recorded completed with the deduplicated aggregates of the events recorded during its last invocation |
| StepRecords.CommittedIs | saga-forge-core/src/test/java/io/github/gkosharovdev/sagaforge/core/execution/harness/HarnessSagaLifecycle.java:86-115 | every field of the instance a commit leaves, its last modification included, which is the time of the unit of work |
| EngineAndStorage.CommittedForwardIff | saga-forge-core/src/test/java/io/github/gkosharovdev/sagaforge/core/execution/harness/HarnessSagaLifecycle.java:86-115 | what a commit leaves is a forward transition iff no step that was completed before ran again and recorded, in its last invocation, events of other aggregates, or in another order, than its completion names |
| EngineAndStorage.RunningElsewhereIsNotForward | saga-forge-core/src/test/java/io/github/gkosharovdev/sagaforge/core/execution/harness/HarnessSagaLifecycle.java:86-100 | a concrete unit of work that commits and is not forward: a RUNNING saga's completed step, triggered again, records an event of another aggregate |
| EngineAndStorage.SnapshotAccepted | saga-forge-core/src/test/java/io/github/gkosharovdev/sagaforge/core/execution/harness/HarnessSagaLifecycle.java:86-150 | against the tables, the snapshot a unit of work leaves satisfies the outcome and failure invariant, and is accepted iff it failed, started the saga, or no completed step ran again recording, the last time, other aggregates or the same in another order |
| HarnessUnitOfWork.HarnessCommandGateway.RegisterAll | saga-forge-core/src/test/java/io/github/gkosharovdev/sagaforge/core/execution/harness/HarnessCommandGateway.java:84-123 | all handlers are registered iff each handles a command and no two, nor one already there, handle the same; otherwise those before the first that cannot be; exactly the registered ones are routed, each command to its own handler |
| HarnessUnitOfWork.HarnessCommandGateway.Send | saga-forge-core/src/test/java/io/github/gkosharovdev/sagaforge/core/execution/harness/HarnessCommandGateway.java:202-226 | does and throws what the specification of a send says, marking the unit of work first |
| HarnessUnitOfWork.HarnessCommandGateway.DispatchTo | saga-forge-core/src/test/java/io/github/gkosharovdev/sagaforge/core/execution/harness/HarnessCommandGateway.java:228-270 | the service, load-handle-save and create-save routes, with their early exits |
| HarnessUnitOfWork.HarnessUnitOfWork.Record | saga-forge-core/src/test/java/io/github/gkosharovdev/sagaforge/core/execution/harness/HarnessUnitOfWork.java:154-174 | touches, records and queues a valid event; throws without queueing it or marking if its accessor throws once it is recorded; marks and throws for an invalid one |
| HarnessUnitOfWork.HarnessUnitOfWork.RecordFromClient | saga-forge-core/src/main/java/io/github/gkosharovdev/sagaforge/core/event/DomainEvents.java:41-87 | refuses an event that is not annotated before the unit of work sees it, which is not marked |
| HarnessUnitOfWork.HarnessUnitOfWork.Execute | saga-forge-core/src/test/java/io/github/gkosharovdev/sagaforge/core/execution/harness/HarnessUnitOfWork.java:225-234 | client code run on the object, with real aggregates it gets, changes in place, stores and removes, leaves the state the specified run leaves |
| HarnessUnitOfWork.HarnessUnitOfWork.NextStep | saga-forge-core/src/test/java/io/github/gkosharovdev/sagaforge/core/execution/harness/HarnessUnitOfWork.java:225-242 | one pass of the loop takes the state to that of the specified step |
| HarnessUnitOfWork.HarnessUnitOfWork.RunSteps | saga-forge-core/src/test/java/io/github/gkosharovdev/sagaforge/core/execution/harness/HarnessUnitOfWork.java:225-242 | the loop reaches the state, and throws the cause, of the specified run |
| HarnessUnitOfWork.HarnessUnitOfWork.Rollback | saga-forge-core/src/test/java/io/github/gkosharovdev/sagaforge/core/execution/harness/HarnessUnitOfWork.java:249-269 | restores the participants, the aggregate store by its own restore over the heap, lists the undelivered events as discarded, re-creates a started instance and marks it FAILED in a write of its own |
| HarnessUnitOfWork.HarnessUnitOfWork.Run | saga-forge-core/src/test/java/io/github/gkosharovdev/sagaforge/core/execution/harness/HarnessUnitOfWork.java:181-191 | the object's outcome and stores are those of the specified unit of work, for every client code, aggregates changed in place included; after a rollback every aggregate with a copier is as it was |
| HarnessUnitOfWork.HarnessUnitOfWork.DispatchPending | saga-forge-core/src/test/java/io/github/gkosharovdev/sagaforge/core/execution/harness/HarnessUnitOfWork.java:194-205 | hands over the undelivered events in recording order |
| HarnessUnitOfWork.HarnessUnitOfWork.RunAndDispatch | saga-forge-core/src/test/java/io/github/gkosharovdev/sagaforge/core/execution/harness/SagaTestHarness.java:360-384 | running and then dispatching gives the specified result, and the stores it reports are those on the heap |
| Harness.StartHasNoRival | saga-forge-core/src/test/java/io/github/gkosharovdev/sagaforge/core/execution/harness/HarnessSagaLifecycle.java:64-68 | a start that is not rejected adds an instance that no active one of its type shares an association with |
| Harness.UnitFollows | saga-forge-core/src/test/java/io/github/gkosharovdev/sagaforge/core/execution/harness/HarnessUnitOfWork.java:181-269 | a finished unit of work changes only its own instance, which stays the same saga and never becomes active again |
| Harness.AtMostOneActive | saga-forge-core/src/test/java/io/github/gkosharovdev/sagaforge/core/execution/harness/SagaTestHarness.java:327-332 | at most one active instance of a saga type correlates with an event |
| Harness.DeliverToReportsOnce | saga-forge-core/src/test/java/io/github/gkosharovdev/sagaforge/core/execution/harness/SagaTestHarness.java:319-358 | a reacting saga type gets exactly one report; a unit of work runs, for an active correlating instance, iff there is one or the step starts one; the event is unmatched iff nothing correlates, and otherwise unexpected for the correlating instance stored last; whatever is delivered again in between, and without that it throws iff the property has no value or its accessor throws |
| Harness.ReadAgain | saga-forge-core/src/test/java/io/github/gkosharovdev/sagaforge/core/execution/harness/SagaTestHarness.java:334-349 | an instance found to correlate is read again when its turn comes: gone, the event is unmatched; ended, unexpected; else the unit of work gets the instance as it is now |
| Harness.EachInTurn | saga-forge-core/src/test/java/io/github/gkosharovdev/sagaforge/core/execution/harness/SagaTestHarness.java:334-349 | the instances found are dealt with in order, each on what the earlier ones left, up to the first exception |
| Harness.DeliverAllReports | saga-forge-core/src/test/java/io/github/gkosharovdev/sagaforge/core/execution/harness/SagaTestHarness.java:274-317 | one report per reacting saga type, in registration order, or a single IGNORED; the invariant survives, also an exception, and deliveries nested in the dispatch to any depth |
| Harness.RefusedIff | saga-forge-core/src/test/java/io/github/gkosharovdev/sagaforge/core/execution/harness/SagaTestHarness.java:274-296 | without redelivery a delivery that ends is refused iff the event is not annotated or lacks the association value of a saga type that reacts |
| Harness.EveryReachableState | saga-forge-core/src/test/java/io/github/gkosharovdev/sagaforge/core/execution/harness/SagaTestHarness.java:274-384 | every state reached by any deliveries, with any client code in them and between them and with dispatched events delivered again or not, has distinct ids, valid instances, at most one active instance per saga type, property and value, and fresh ids to come |
| Harness.RedeliveryIsArrival | saga-forge-core/src/test/java/io/github/gkosharovdev/sagaforge/core/execution/harness/SagaTestHarness.java:310-317 | delivering the dispatched events again, nested in the dispatch, ends as if they had arrived from outside one after the other: in the same state, and without an exception iff none of those arrivals meets one |
| Harness.UnitThenArrivals | saga-forge-core/src/test/java/io/github/gkosharovdev/sagaforge/core/execution/harness/SagaTestHarness.java:360-384 | a unit of work of a delivery, and then each event it dispatched as an arrival of its own, in order, up to the first exception |
| SagaTestHarness.SagaTestHarness.RunUnitOfWork | saga-forge-core/src/test/java/io/github/gkosharovdev/sagaforge/core/execution/harness/SagaTestHarness.java:360-384 | the object's reply and stores are the specified ones, those of the deliveries nested in the dispatch included |
| SagaTestHarness.SagaTestHarness.Redeliver | saga-forge-core/src/test/java/io/github/gkosharovdev/sagaforge/core/execution/harness/SagaTestHarness.java:299-317 | the dispatched events are delivered one after the other, each as a whole, up to the first exception, as specified |
| SagaTestHarness.SagaTestHarness.DeliverToSaga | saga-forge-core/src/test/java/io/github/gkosharovdev/sagaforge/core/execution/harness/SagaTestHarness.java:319-358 | the object's reply and stores are the specified ones, active instances read again before each unit of work |
| SagaTestHarness.SagaTestHarness.Deliver | saga-forge-core/src/test/java/io/github/gkosharovdev/sagaforge/core/execution/harness/SagaTestHarness.java:274-296 | the object's reply and stores are the specified ones, for every client code |
| SagaTestHarness.SagaTestHarness.PerformEach | saga-forge-core/src/test/java/io/github/gkosharovdev/sagaforge/core/execution/harness/SagaTestHarness.java:274-296 | any sequence of deliveries and client work gives the specified replies and stores, or never returns where the specification does not |
| SagaTestHarness.ResumeSimulates | saga-forge-core/src/test/java/io/github/gkosharovdev/sagaforge/core/execution/harness/SagaTestHarness.java:225-247 | cut any run between two actions: from the captured instances, contexts and aggregates it goes on with the same replies and stores as without the cut |
| SagaTestHarness.RestockedNeedsDistinctIds | saga-forge-core/src/test/java/io/github/gkosharovdev/sagaforge/core/execution/harness/PersistedState.java:73-77 | refilling a storage from the captured instances gives them back iff their ids are distinct |
| SagaTestHarness.SagaTestHarness.Persisted | saga-forge-core/src/test/java/io/github/gkosharovdev/sagaforge/core/execution/harness/SagaTestHarness.java:242-247 | the stored instances and contexts, and a private copy of the aggregate store |
| SagaTestHarness.SagaTestHarness.FromPersistedState | saga-forge-core/src/test/java/io/github/gkosharovdev/sagaforge/core/execution/harness/SagaTestHarness.java:225-233 | the rebuilt harness holds the captured state in three stores of its own; its aggregates are new objects where their type has a copier and the captured ones where not |
| SagaTestHarness.SagaTestHarness.Resume | saga-forge-core/src/test/java/io/github/gkosharovdev/sagaforge/core/execution/harness/SagaTestHarness.java:225-247 | whatever is delivered to, and done in, a harness rebuilt from the captured state, it replies and ends as this one would have; this one's and the capture's instances and contexts stay, and so do their aggregates whose type has a copier, all of them if every stored type has one |
| SagaTestHarness.SagaTestHarness.ResumeBesideClients | saga-forge-core/src/test/java/io/github/gkosharovdev/sagaforge/core/execution/harness/PersistedState.java:19-26 | the same separation when client code keeps, from action to action, every reference it ever got in the rebuilt harness and goes on changing those aggregates |
| SagaTestHarness.SagaTestHarness.ResumedChangesUncopied | saga-forge-core/src/test/java/io/github/gkosharovdev/sagaforge/core/execution/harness/PersistedState.java:19-26 | for any stored aggregate without a copier there is client code that, run in the rebuilt harness, changes it in the original |
| BookingSteps.RequestedRuns | saga-forge-core/src/test/java/io/github/gkosharovdev/sagaforge/core/execution/fixtures/booking/CreateBookingSaga.java:102-107 | throws iff the inventory is not found, holds the claim already, or a failure is armed, and which of these it reports; otherwise it has written the inventory and amount and claimed |
| BookingSteps.ClaimedRuns | saga-forge-core/src/test/java/io/github/gkosharovdev/sagaforge/core/execution/fixtures/booking/CreateBookingSaga.java:111-115 | throws iff the amount was not remembered or a failure is armed; otherwise it has written the claim id and initiated the payment of that amount |
| BookingSteps.PaidRuns | saga-forge-core/src/test/java/io/github/gkosharovdev/sagaforge/core/execution/fixtures/booking/CreateBookingSaga.java:119-123 | always writes the payment id; throws iff the claim id was not remembered or a failure is armed; otherwise it has stored the booking |
| BookingSteps.DeclinedRuns | saga-forge-core/src/test/java/io/github/gkosharovdev/sagaforge/core/execution/fixtures/booking/CreateBookingSaga.java:135-139 | writes nothing; throws iff inventory and claim were not remembered, the inventory is not found, the claim not held, or a failure is armed, and which of these it reports; otherwise it has released the claim |
| BookingSteps.StartDrains | saga-forge-core/src/test/java/io/github/gkosharovdev/sagaforge/core/execution/fixtures/booking/CreateBookingSaga.java:102-115 | the first unit of work, run to its wait point: one new claim, both steps, the three context values |
| BookingSteps.PaidDrains | saga-forge-core/src/test/java/io/github/gkosharovdev/sagaforge/core/execution/fixtures/booking/CreateBookingSaga.java:119-130 | the confirmed path, run to its end |
| BookingSteps.DeclinedDrains | saga-forge-core/src/test/java/io/github/gkosharovdev/sagaforge/core/execution/fixtures/booking/CreateBookingSaga.java:135-139 | the declined path, run to its end |
| BookingOutcomes.RequestCommitsIff | saga-forge-core/src/test/java/io/github/gkosharovdev/sagaforge/core/execution/fixtures/booking/CreateBookingSaga.java:100-115 | a request commits iff its inventory is known, the claim is free there, and no failure is armed for either of its steps; otherwise it reports the first of these that fails |
| BookingOutcomes.PayCommitsIff | saga-forge-core/src/test/java/io/github/gkosharovdev/sagaforge/core/execution/fixtures/booking/CreateBookingSaga.java:117-130 | a confirmation commits iff the claim was remembered and no failure is armed for its step |
| BookingOutcomes.DeclineCommitsIff | saga-forge-core/src/test/java/io/github/gkosharovdev/sagaforge/core/execution/fixtures/booking/CreateBookingSaga.java:133-139 | a refusal commits iff the claim was remembered, is held where the saga recorded, and no failure is armed; otherwise it reports the first of these that fails |
| BookingSafety.EachClaimHasOneOwner | saga-forge-core/src/test/java/io/github/gkosharovdev/sagaforge/core/execution/fixtures/booking/CreateBookingSaga.java:100-139 | in a safe state a held claim has one owner, RUNNING, COMPLETED at onBookingConfirmed, or FAILED with both first-unit steps completed |
| BookingSafety.EachBookingIsBacked | saga-forge-core/src/test/java/io/github/gkosharovdev/sagaforge/core/execution/fixtures/booking/CreateBookingSaga.java:100-139 | in a safe state a stored booking's claim is held in the inventory its completing saga recorded |
| BookingSafety.HolderClaims | saga-forge-core/src/test/java/io/github/gkosharovdev/sagaforge/core/execution/fixtures/booking/CreateBookingSaga.java:102-115 | a committed first unit of work keeps the state safe |
| BookingSafety.HolderGoesOn | saga-forge-core/src/test/java/io/github/gkosharovdev/sagaforge/core/execution/fixtures/booking/CreateBookingSaga.java:119-130 | a confirmation, or a failure of the second unit of work, keeps the state safe |
| BookingSafety.HolderReleases | saga-forge-core/src/test/java/io/github/gkosharovdev/sagaforge/core/execution/fixtures/booking/CreateBookingSaga.java:135-139 | a declined payment keeps the state safe |
| BookingProtocol.EveryRunIsSafe | saga-forge-core/src/test/java/io/github/gkosharovdev/sagaforge/core/execution/fixtures/booking/CreateBookingSaga.java:100-139 | from a safe state, every sequence of deliveries with any failures injected stays safe |
| BookingProtocol.ProtocolIsSafe | saga-forge-core/src/test/java/io/github/gkosharovdev/sagaforge/core/execution/fixtures/booking/CreateBookingSaga.java:100-139 | every run ends; from the start, after every sequence of requests, confirmations and refusals with any failures injected, each held claim has exactly one owner of the statuses above and each stored booking is backed |
| BookingOutcomes.CalmArrivalSucceedsIff | saga-forge-core/src/test/java/io/github/gkosharovdev/sagaforge/core/execution/fixtures/booking/CreateBookingSaga.java:100-139 | after every sequence of requests, confirmations and refusals with any failures injected, an arrival without a failure commits iff it finds what it needs, a free claim and no saga of that booking under way, or else such a saga; and then the claim is held, the booking stored, or the claim released |
| InventoryObjects.Inventory.HandleClaim | saga-forge-core/src/test/java/io/github/gkosharovdev/sagaforge/core/execution/fixtures/booking/Inventory.java:48-56 | claims once, records the event, and throws for a claim already held without a change, or after its change when armed |
| InventoryObjects.Inventory.HandleRelease | saga-forge-core/src/test/java/io/github/gkosharovdev/sagaforge/core/execution/fixtures/booking/Inventory.java:64-70 | releases, records the event, and throws for a claim not held, or after its change when armed |
| InventoryObjects.InventoryRepository.Snapshot | saga-forge-core/src/test/java/io/github/gkosharovdev/sagaforge/core/execution/fixtures/booking/InventoryRepository.java:66-68 | copies no one else holds |
| InventoryObjects.InventoryRepository.Restore | saga-forge-core/src/test/java/io/github/gkosharovdev/sagaforge/core/execution/fixtures/booking/InventoryRepository.java:71-77 | copies of the copies go back; the save count stays |
| InventoryObjects.InventoryRepository.ClaimThrough | saga-forge-core/src/test/java/io/github/gkosharovdev/sagaforge/core/execution/fixtures/booking/InventoryRepository.java:28-44 | load, handle and save through shared references change the claims as the protocol's functions say |
| InventoryObjects.InventoryRepository.ReleaseThrough | saga-forge-core/src/test/java/io/github/gkosharovdev/sagaforge/core/execution/fixtures/booking/InventoryRepository.java:28-44 | likewise for a release |
| InventoryObjects.InventoryRepository.ClaimThenRollBack | saga-forge-core/src/test/java/io/github/gkosharovdev/sagaforge/core/execution/fixtures/booking/InventoryRepository.java:66-77 | an in-place claim is undone by a restore, and by any further restore of the same snapshot |
| AggregateStore.InMemoryAggregateStore.CopyEntries | saga-forge-core/src/test/java/io/github/gkosharovdev/sagaforge/core/execution/harness/InMemoryAggregateStore.java:150-157 | a fresh, equal copy where the type has a copier, the object itself otherwise |
| AggregateStore.InMemoryAggregateStore.Snapshot | saga-forge-core/src/test/java/io/github/gkosharovdev/sagaforge/core/execution/harness/InMemoryAggregateStore.java:116-118 | equal states; aggregates with a copier are objects no one else holds |
| AggregateStore.InMemoryAggregateStore.Restore | saga-forge-core/src/test/java/io/github/gkosharovdev/sagaforge/core/execution/harness/InMemoryAggregateStore.java:126-133 | equal states again, without handing out the snapshot's own objects |
| AggregateStore.InMemoryAggregateStore.Copy | saga-forge-core/src/test/java/io/github/gkosharovdev/sagaforge/core/execution/harness/InMemoryAggregateStore.java:143-148 | a store of its own with equal states |
| AggregateStore.InMemoryAggregateStore.Work | saga-forge-core/src/test/java/io/github/gkosharovdev/sagaforge/core/execution/harness/InMemoryAggregateStore.java:59-93 | whatever client code does with the references to aggregates it has and gets, the store and every object are in the state the operations on values say, object by object |
| AggregateModel.Removed | saga-forge-core/src/test/java/io/github/gkosharovdev/sagaforge/core/execution/harness/InMemoryAggregateStore.java:92 | after a removal the key is absent, every other key has its state, and references held keep their objects |
| AggregateModel.CreatedThenStored | saga-forge-core/src/test/java/io/github/gkosharovdev/sagaforge/core/execution/harness/InMemoryAggregateStore.java:59-70 | a new aggregate is not in the store until it is put there, and is then the state under its key |
| AggregateModel.ChangedShows | saga-forge-core/src/test/java/io/github/gkosharovdev/sagaforge/core/execution/harness/InMemoryAggregateStore.java:77-81 | changing an aggregate in place shows in the store iff that very object is what its key refers to |
| AggregateStore.InMemoryAggregateStore.RestoreCopies | saga-forge-core/src/test/java/io/github/gkosharovdev/sagaforge/core/execution/harness/InMemoryAggregateStore.java:116-157 | after such work a rollback leaves, for each key, the state at the snapshot if there is a copier and else the state the stored object has now |
| UnitOutcomes.EveryRollbackUndoesIff | saga-forge-core/src/test/java/io/github/gkosharovdev/sagaforge/core/execution/harness/HarnessUnitOfWork.java:249-253 | for all client code, a rollback puts the aggregate store back as it was iff the type of every stored aggregate has a copier |
| AggregateStore.InMemoryAggregateStore.SnapshotSeparates | saga-forge-core/src/test/java/io/github/gkosharovdev/sagaforge/core/execution/harness/InMemoryAggregateStore.java:116-157 | with a copier for every stored type, restoring gives the states at the time of the snapshot, after any work and any number of times |
| AggregateStore.InMemoryAggregateStore.UncopiedChangeSurvives | saga-forge-core/src/test/java/io/github/gkosharovdev/sagaforge/core/execution/harness/InMemoryAggregateStore.java:28-30 | without a copier an in-place change survives the restore, and shows iff it changed something |
| AggregateStore.InMemoryAggregateStore.CopySeparates | saga-forge-core/src/test/java/io/github/gkosharovdev/sagaforge/core/execution/harness/InMemoryAggregateStore.java:143-148 | work in a copy of the store, with every reference kept, changes no aggregate here that has a copier, and nothing if all have |
| AggregateStore.InMemoryAggregateStore.UncopiedIsShared | saga-forge-core/src/test/java/io/github/gkosharovdev/sagaforge/core/execution/harness/InMemoryAggregateStore.java:143-148 | without a copier a change through the copy is a change here |
| AggregateStore.InMemoryAggregateStore.CopierSeparates | saga-forge-core/src/test/java/io/github/gkosharovdev/sagaforge/core/execution/harness/InMemoryAggregateStore.java:45-51 | registering a copier is what makes the difference |
| AggregateStore.InMemoryAggregateStore.AliasIsSplit | saga-forge-core/src/test/java/io/github/gkosharovdev/sagaforge/core/execution/harness/InMemoryAggregateStore.java:150-157 | one aggregate put under two keys is two aggregates in the copy |
| SagaContext.HarnessSagaContext.constructor | saga-forge-core/src/test/java/io/github/gkosharovdev/sagaforge/core/execution/harness/HarnessSagaContext.java:40-49 | holds what the store has for the saga, in maps of its own |
| SagaContext.HarnessSagaContext.GetState | saga-forge-core/src/test/java/io/github/gkosharovdev/sagaforge/core/execution/harness/HarnessSagaContext.java:52-64 | answers from what the store holds: blank name, missing, wrong type, or the value, as LookupIs says |
| SagaContext.LookupIs | saga-forge-core/src/test/java/io/github/gkosharovdev/sagaforge/core/execution/harness/HarnessSagaContext.java:52-64 | found iff the name is not blank, is there, and its value is of the class asked for: anything as Object, structured state as a map, a plain value as its own class |
| SagaContext.HarnessSagaContext.PutState | saga-forge-core/src/test/java/io/github/gkosharovdev/sagaforge/core/execution/harness/HarnessSagaContext.java:67-72 | writes a copy through to this saga's record; a refused put changes nothing |
| SagaContext.HarnessSagaContext.UpdateStateAttribute | saga-forge-core/src/test/java/io/github/gkosharovdev/sagaforge/core/execution/harness/HarnessSagaContext.java:76-92 | writes one field through; a refused update changes neither state nor store |
| SagaContext.HarnessSagaContext.MakeAll | saga-forge-core/src/test/java/io/github/gkosharovdev/sagaforge/core/execution/harness/HarnessSagaContext.java:66-104 | any sequence of puts, updates and changes by callers to their own maps leaves the record the writes, refused ones included, say: each put map with the fields it had at that call, callers' changes nothing; other sagas' records are untouched |
| SagaContext.HarnessSagaContext.MakeAllShares | saga-forge-core/src/test/java/io/github/gkosharovdev/sagaforge/core/execution/harness/HarnessSagaContext.java:66-104 | after it the record refers to a given map iff the callers gave it that map and left it there |
| SagaContext.SharedIffCallersGave | saga-forge-core/src/test/java/io/github/gkosharovdev/sagaforge/core/execution/harness/HarnessSagaContext.java:66-104 | after any sequence of changes by callers the record refers to a map iff it did before, or an accepted change gave it that map, as a field which a map that was put had at that call or as the value of an update, and no accepted change overwrote the field later |
| SagaContext.NothingSharedIffFlat | saga-forge-core/src/test/java/io/github/gkosharovdev/sagaforge/core/execution/harness/HarnessSagaContext.java:66-104 | no caller's map is ever in the record iff no map has a map among its fields at the call that puts it and no accepted update has a map as its value |
| SagaContext.ReachableIff | saga-forge-core/src/test/java/io/github/gkosharovdev/sagaforge/core/execution/harness/HarnessSagaContext.java:66-104 | a given map can be reached from the record, through any depth of nesting, iff fields lead to it from a map that a caller gave the record and that is still there |
| SagaContext.HarnessSagaContext.ChangeThenRecreate | saga-forge-core/src/test/java/io/github/gkosharovdev/sagaforge/core/execution/harness/HarnessSagaContext.java:40-104 | after any changes, refused ones included, a re-created context answers every question alike, and other sagas' records are untouched |
| SagaContext.HarnessSagaContext.CallerChangesItsMap | saga-forge-core/src/test/java/io/github/gkosharovdev/sagaforge/core/execution/harness/HarnessSagaContext.java:67-72 | a map the caller put and then changes changes nothing stored |
| SagaContext.HarnessSagaContext.InnerMapIsShared | saga-forge-core/src/test/java/io/github/gkosharovdev/sagaforge/core/execution/harness/HarnessSagaContext.java:67-72 | a map nested in the map that was put does stay shared with the caller |
| SagaContext.HarnessSagaContext.UpdatedMapIsShared | saga-forge-core/src/test/java/io/github/gkosharovdev/sagaforge/core/execution/harness/HarnessSagaContext.java:76-92 | a map given as the new value of a field stays the caller's own, changes made later included |
| ReflectiveAnnotationScanner.Reach | saga-forge-core/src/main/java/io/github/gkosharovdev/sagaforge/core/scanner/ReflectiveAnnotationScanner.java:201-207 | the passed-in classes, then the reached types in discovery order, each once, which ReachedResultIff describes by signature |
| ReflectiveAnnotationScanner.GroupMembers | saga-forge-core/src/main/java/io/github/gkosharovdev/sagaforge/core/scanner/ReflectiveAnnotationScanner.java:383-393 | the grouping map holds exactly the well-formed members of every host by what they handle, load or save |
| ReflectiveAnnotationScanner.ReportDuplicates | saga-forge-core/src/main/java/io/github/gkosharovdev/sagaforge/core/scanner/ReflectiveAnnotationScanner.java:448-458 | one error per key with more than one member, in key order, members sorted |
| ReflectiveAnnotationScanner.ValidateInstanceHandlers | saga-forge-core/src/main/java/io/github/gkosharovdev/sagaforge/core/scanner/ReflectiveAnnotationScanner.java:422-437 | one error per instance handler of a command without an identifier, host by host |
| ReflectiveAnnotationScanner.Validate | saga-forge-core/src/main/java/io/github/gkosharovdev/sagaforge/core/scanner/ReflectiveAnnotationScanner.java:198-224 | the loops produce the specified report |
| ScannerGuarantees.OrderDoesNotMatter | saga-forge-core/src/main/java/io/github/gkosharovdev/sagaforge/core/scanner/ReflectiveAnnotationScanner.java:198-224 | the same classes in any order, repeated or not: identical duplicate errors, and the same instance-handler errors and class results up to order |
| ScannerGuarantees.ReportedDuplicateIff | saga-forge-core/src/main/java/io/github/gkosharovdev/sagaforge/core/scanner/ReflectiveAnnotationScanner.java:383-458 | the report names a command or aggregate iff two well-formed handlers, loaders or savers, at different places of the passed-in hosts, serve it, and then lists all of them in ascending order |
| ScannerGuarantees.NoReportedDuplicateIff | saga-forge-core/src/main/java/io/github/gkosharovdev/sagaforge/core/scanner/ReflectiveAnnotationScanner.java:383-458 | no duplicate is reported iff across the passed-in hosts each command has at most one well-formed handler and each aggregate at most one well-formed loader and saver |
| ScannerGuarantees.InstanceErrorIff | saga-forge-core/src/main/java/io/github/gkosharovdev/sagaforge/core/scanner/ReflectiveAnnotationScanner.java:422-437 | an instance-handler error is reported iff an aggregate host has a non-static handler method whose one command has no identifier |
| ScannerGuarantees.HostPassesIff | saga-forge-core/src/main/java/io/github/gkosharovdev/sagaforge/core/scanner/ReflectiveAnnotationScanner.java:309-376 | a host has no errors iff each handler takes exactly one command, each loader and saver is well formed, and its identifiers and event aggregate are as required |
| ScannerGuarantees.ResultIff | saga-forge-core/src/main/java/io/github/gkosharovdev/sagaforge/core/scanner/ReflectiveAnnotationScanner.java:244-260 | a class has a result iff it is a passed-in saga or host, or a passed-in or reached type with errors, and it is the specified one |
| ScannerGuarantees.OneResultEach | saga-forge-core/src/main/java/io/github/gkosharovdev/sagaforge/core/scanner/ReflectiveAnnotationScanner.java:209-215 | no class has two results, and every passed-in saga and host has exactly one |
| ScannerRules.ReachedResultIff | saga-forge-core/src/main/java/io/github/gkosharovdev/sagaforge/core/scanner/ReflectiveAnnotationScanner.java:280-300 | a class not passed in has a result iff it is an aggregate, event or command that breaks an identifier or event rule, and a passed-in class names it: a saga as a step parameter, any other class as a handler parameter, a loader's return type or a saver parameter; its errors are exactly the rules broken |
| ScannerRules.PassedInResultIff | saga-forge-core/src/main/java/io/github/gkosharovdev/sagaforge/core/scanner/ReflectiveAnnotationScanner.java:244-260 | a passed-in class has a result iff it is a saga, declares a handler, loader or saver, or breaks an identifier or event rule; its errors are exactly the saga's, or the rules its members, identifiers and event aggregate break |
| ScannerRules.ServedAtIff | saga-forge-core/src/main/java/io/github/gkosharovdev/sagaforge/core/scanner/ReflectiveAnnotationScanner.java:383-413 | what serves a key: a member with exactly one command parameter, a loader of one parameter that returns that aggregate, a saver whose only parameter it is, declared in a passed-in class that is not a saga |
| ScannerRules.DuplicateNames | saga-forge-core/src/main/java/io/github/gkosharovdev/sagaforge/core/scanner/ReflectiveAnnotationScanner.java:448-458 | a duplicate error lists exactly the members that serve the key, as class and member name |
| ScannerRules.DuplicatesInOrder | saga-forge-core/src/main/java/io/github/gkosharovdev/sagaforge/core/scanner/ReflectiveAnnotationScanner.java:439-458 | duplicate errors come in ascending order of the key's simple name, then of its full name |
| ScannerRules.MissingIdentifierIff | saga-forge-core/src/main/java/io/github/gkosharovdev/sagaforge/core/scanner/ReflectiveAnnotationScanner.java:422-437 | the error names command, host and handler exactly as declared |

## Left out

- JDBC plumbing, connection pools, SQL text, autocommit restore and exception wrapping: the statements are modelled by what they read, lock and write.
- Jackson's printing and parsing and jsonb's number normalisation: the JSON layer is taken as the identity up to the order of object entries; no numeric round trip through the column is claimed.
- The row version test `(xmax = 0)`: taken to mean that the upsert inserted the row.
- Strings are compared by Dafny characters, not by UTF-16 code units or a database collation; sequence numbers do not overflow a long.
- Clocks: a timestamp is an opaque number, fixed within one unit of work; the timestamps of context records are not modelled.
- Null arguments, error wording, exception classes as such, and getters: they only add one-branch facts.
- Reflection: classes, members and annotations are data, the members of a class already in the name order the scanner sorts them into; the rules inside one saga class are a given list of errors.
- Calling deliver while a unit of work runs, publishing from another thread, and sending while no unit of work runs: refused with an exception that marks nothing. With redelivery, the order in which the dispatcher's own list and the event log interleave nested dispatches is not modelled; the clock stands still during a delivery and those nested in it.
- The event log and the dispatcher's listeners: results carry what was delivered, dispatched and discarded.
- The resolver and the in-memory resolver's lookups: client code uses the aggregate store itself, storing an aggregate under its own type and identifier as the resolver does; a store put under another key is in `AggregateStore.InMemoryAggregateStore.AliasIsSplit` only.
- The state of an aggregate is one value, and a context value of `UnitOfWork` is a string; nested values are in `SagaContext`.
- Client code that keeps a reference to an aggregate from one action to the next: that it cannot reach the original harness is proved (`ResumeBesideClients`), what it does to the harness it works in is not specified.
- Insertion order of context records and of aggregate store entries: kept as maps, so `PersistedState` is modelled up to that order.
- The save counts of the repositories are modelled in `InventoryObjects` only; the booking repository and the payment service are values in `Booking`.
- Blank names in `SagaContext` are those of the four ASCII white-space characters.
- SaveGuarantees.HistoryIsTheCommittedChain: claims numbering from 0 only for a saga that was never deleted, because the code does not keep it otherwise.
- HarnessUnitOfWork.HarnessUnitOfWork.Run: observed for a given number of step invocations; a run that needs more is reported as unfinished and nothing is claimed about its state.
- BookingProtocol.ProtocolIsSafe: covers the three events that arrive from outside (booking requested, payment confirmed, payment declined); an AvailabilityClaimed or BookingConfirmed event delivered from outside is not covered.
- Compensation, the Spring starter, Kafka and in-memory transports, the smaller doubles of the harness and the example module: not implemented, or smaller instances of the same protocol.
- Threads inside the harness: concurrency belongs to the Postgres part only.
