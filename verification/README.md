# AVTools, modelled and proved in Dafny

AVTools keeps cache tables of audiovisual equipment in step with two upstream systems (EAM and
LanDB), maps devices to rooms, and turns ping and SNMP answers into exported time series. This
project models its three I/O-free components and proves what they promise over every input,
every run or every interleaving.

**Snapshot reconciliation** (`ChunkedLookup`, `LandbModel`, `LandbJoin`, `Reconcile`, `RunLandb`,
`EamSync`). LanDB is a fixed sequence of records; every request may fail after delivering a prefix
of its records, and every transaction may roll back. A cycle joins EAM and LanDB, diffs the join
against the table behind two delete guards, commits, and turns a status string into an exit code
and a heartbeat. Classes (`BulkFetcher`, `CacheTable`, `AvTools`) hold the fields the program
updates in place; each of their methods is proved equal to a function on values, and the theorems
are about those functions. What such a function means is stated without it: the columns of a record
(`LandbModel.EnrichDescribes`), a room by the position rows (`RoomClimb.ResolveByRows`), a ping by
its retries (`PingProtocol.PingHost`), a published sample by what the network answers
(`Telemetry.CycleSaysIff`).

**Room climb** (`RoomClimb`, `SyncRooms`). A memoising resolver climbs an arbitrary parent map,
with cycles, dangling links and long chains, and a materialised device-to-room table is refreshed
from it.

**Collection to time series** (`Targets`, `Dispatch`, `Walks`, `PingProtocol`, `Backoff`,
`Collection`, `Encoder`, `Readings`, `SeriesIdentity`, `LabelKeys`, `Ownership`, `Conservation`,
`Deployment`, `Telemetry`, `Publisher`). Targets are sharded, dealt to workers, pinged with retries under each worker's
semaphore, probed, and queried through the handler of their address; the answers are encoded into
samples, filtered by tier, grouped by label tuple, merged with global labels and exported.

`Common`, `Text` and `Sorting` hold shared vocabulary: lists built by appending loops,
distinctness, multisets, trimming, decimal rendering and insertion sort.

What the proofs found in the code:

- A refused mass delete is forgotten by an identical next run when the refused rows do not
  outnumber the upstream items, because the refused run has already inserted those items and so
  grown the cache (`Reconcile.RerunIsIdleIff`; one cached row against one other item is a case,
  `EamSync.RefusalIsForgotten`).
- A column an item leaves unset keeps its old value until some other field changes, and is then
  nulled (`EamSync.UnsetFieldsLingerIff`, `EamSync.LingersThenNulled`).
- Without cleaning a text with a droppable end is rewritten by every run once it has been written
  (`EamSync.UncleanedTextChurns`), and an item whose id has spaces around it never settles: every
  run inserts it again (`EamSync.UntrimmedIdNeverSettles`). Of clean items a second run has nothing
  to write exactly when all ids are trimmed (`EamSync.SettlesIffTrimmed`); a lone id with a space
  fails every run after the first (`EamSync.SpacedIdFails`).
- A failed serial-number chunk can give a record another device's data, because the name lookup
  then takes over (`LandbJoin.LostSerialMisleads`). No failure can do so exactly when no record's
  description finds another item than its serial number does (`LandbJoin.NeverWrongIff`); all other
  failures only leave records out (`LandbJoin.PartialItem`, `RunLandb.PartialRowsAreRight`).
- A room whose equipment number is one of the two marker texts makes the marker ambiguous; without
  one that some anchor climbs to, each marker is exact (`RoomClimb.MarkersExactIff`,
  `RoomClimb.MarkerRoomMisleads`).
- Members of a parent cycle agree on which room they are in exactly when the cycle holds at most
  one room (`RoomClimb.CycleAgreesOnRoomIff`).
- The order of the table's rows, which the query leaves open, and the number of workers change the
  results exactly when a queried target shares its address with one whose handler asks for
  something else, because the first handler of a chunk wins; when one device answers each address
  consistently, exactly when that handler gets something else of what the target's family reads
  (`Collection.WorkerIndependenceIff`).
- Chunk size matters exactly when records that merge under one key can differ in the filtered
  field (`ChunkedLookup.ChunkSizeIrrelevantIff`).
- The advertised ping budget is too small exactly when there are retries and the jitter or some
  worst-case delay is negative (`Backoff.BudgetHoldsIff`).
- The ping concurrency caps one worker, not the stage: the stage's bound is the number of workers
  times the cap (`PingProtocol.StageBound`), and each worker can reach its cap
  (`PingProtocol.CapIsReached`).
- The coverage ratio is documented as falling below 1 on silent loss
  (`src/avtools/pipeline/snmp_router.py:215-216`), but the ping stage yields one result per target
  whatever happens, so the published ratio is always 1 (`Deployment.CoverageIsAlwaysFull`). The
  model follows the code.
- The cycle summary's `unreachable_targets` counts targets without an equipment number
  (`src/avtools/core/av_tools.py:1532-1537`), but loading has already dropped those, so it is
  always 0 (`Deployment.NoUnreachableTargets`).
- The collection's docstring says only ping-online devices are probed
  (`src/avtools/core/av_tools.py:1726-1729`); the code probes all of them, and so does the model.

Conditions the theorems carry, all checkable before a call: `ValidSnapshot`, `ValidWorld` and
`NormalTable` say that primary keys are present, trimmed and distinct and that an iteration order
lists a set's elements; the tables are shown to stay so. `DistinctEquipment` says that targets have
distinct equipment numbers (the table's primary key), and `AnswersIndexed` that the rows of one
answer have distinct indices, which the walks of `Walks` are shown to give; the series of a cycle
need no more. `Fleet`, which conservation needs, says instead that targets are valid, have distinct
equipment numbers, and share an address only with targets whose handlers ask the same of it.

## Model

| member | source | states |
|---|---|---|
| `ChunkedLookup.SplitIntoChunks` | src/avtools/core/av_tools.py:1011 | the slicing loop yields the specified chunks for every size from 1 up |
| `ChunkedLookup.ChunksMeaning` | src/avtools/core/av_tools.py:134-135 | the chunks concatenate to the values, are non-empty, all but the last are full, and at the default size a request has at most 802 parameters, under the ceiling of 1000 |
| `ChunkedLookup.FetchInChunks` | src/avtools/core/av_tools.py:962-1045 | the loop returns the first record per key over what was delivered, and degraded exactly when some chunk raised |
| `ChunkedLookup.FetchedHolds` | src/avtools/core/av_tools.py:1015-1023 | a key resolves to its first stored record or not at all, and always when nothing failed, whatever chunks failed and wherever they stopped |
| `ChunkedLookup.FetchedIsStored` | src/avtools/core/av_tools.py:1015-1023 | whatever failed, what is found under a key is a stored record with that key |
| `ChunkedLookup.DegradedIsSubMap` | src/avtools/core/av_tools.py:1002-1006 | a lookup with failures is a sub-map of a clean one, for any two chunk sizes |
| `ChunkedLookup.ChunkSizeIrrelevantIff` | src/avtools/core/av_tools.py:1015-1021 | results never depend on the chunk size exactly when the merge key determines the filtered field |
| `LandbModel.EnrichIsNormal` | src/avtools/postgres/inventory/orm/landb_ipaddress.py:134-215 | an enriched item has only trimmed, non-blank or absent fields and keeps its EAM code as key |
| `LandbModel.EnrichDescribes` | src/avtools/postgres/inventory/orm/landb_ipaddress.py:134-215 | column by column where a record comes from: address IPv4 before IPv6, display name device before description before host name, class, category and manufacturer by their first given text, building, floor and room by the shape of the location |
| `LandbModel.CanonIsFaithful` | src/avtools/postgres/inventory/orm/landb_ipaddress.py:125-131 | over the compared fields an empty diff means equal rows |
| `LandbModel.NormalItemsAreLawful` | src/avtools/postgres/inventory/orm/landb_ipaddress.py:290-345 | normal items convert, are stored under the id they are diffed by, and read back unchanged |
| `LandbModel.LandbClosedForm` | src/avtools/core/av_tools.py:1969-2080 | over LanDB rows a committed reconciliation leaves the converted view, or the old table overridden by it when deletes are suppressed or refused |
| `LandbJoin.CollectUnique` | src/avtools/core/av_tools.py:1100-1107 | the seen-set loop lists each trimmed text once, in order of first occurrence |
| `LandbJoin.BulkFetcher.GetLandbIpaddresses` | src/avtools/core/av_tools.py:1076-1280 | the four-lookup join computes the specified join and flags it degraded exactly when a chunk of some lookup failed; what its items hold is `LandbJoin.ItemsDescribe` |
| `LandbJoin.MatchIsNaive` | src/avtools/core/av_tools.py:1109-1167 | with both device lookups clean, the bulk match is the first device with the serial, else the first named by the description |
| `LandbJoin.JoinIsNaive` | src/avtools/core/av_tools.py:1100-1280 | when no request fails and a device name determines its device, the deduplicated, chunked join is the naive per-record lookup, in EAM order |
| `LandbJoin.ItemsDescribe` | src/avtools/core/av_tools.py:1236-1280 | every item of every join, whatever failed, has an address and is of an EAM record, and each of its columns is that of a stored device with the record's serial number or name, or of a stored IP record of that device |
| `LandbJoin.NaiveItemDescribes` | src/avtools/core/av_tools.py:1193-1260 | when a record's device has a first IP record with an address, its naive item describes those three |
| `LandbJoin.NaiveItemIsAddressed` | src/avtools/core/av_tools.py:1193-1260 | and only then has it one |
| `LandbJoin.PartialItem` | src/avtools/core/av_tools.py:1100-1280 | when names determine devices: whatever fails, a record gets nothing or its own item, unless a failed serial-number chunk lost its device; then nothing or the item of the device its description names |
| `LandbJoin.PartialJoinIsRight` | src/avtools/core/av_tools.py:1100-1280 | when names determine devices and no device is so lost, every item of a degraded join is an item of the naive join |
| `LandbJoin.NeverWrongIff` | src/avtools/core/av_tools.py:1109-1167 | when names determine devices, no failure can give a record another device's item exactly when, for every record whose serial number finds a device, its description finds none or the same item |
| `LandbJoin.LostSerialMisleads` | src/avtools/core/av_tools.py:1109-1167 | two devices and a record on which a failed serial-number chunk stores the other device's address |
| `LandbJoin.JoinItems` | src/avtools/core/av_tools.py:1236-1260 | even a degraded join holds only normal items, at most one per EAM record |
| `Reconcile.CacheTable.GetAll` | src/avtools/postgres/inventory/client.py:168-191 | reading the table yields its rows as domain objects, one per key |
| `Reconcile.CacheTable.SyncDevices` | src/avtools/postgres/inventory/client.py:222-286 | deletes, rewrites and inserts are applied in one transaction; a failure anywhere leaves the table as it was |
| `Reconcile.BuildItemMap` | src/avtools/core/av_tools.py:1980-1981 | items by id, the last of an id winning |
| `Reconcile.CollectInserts` | src/avtools/core/av_tools.py:1987 | the ids upstream has and the cache lacks, for every iteration order |
| `Reconcile.CollectUpdates` | src/avtools/core/av_tools.py:2036-2041 | the shared ids whose items differ, for every iteration order |
| `Reconcile.GuardDeletes` | src/avtools/core/av_tools.py:1986-2024 | what the two delete guards let through, and when the breaker refuses |
| `Reconcile.SyncEntities` | src/avtools/core/av_tools.py:1928-2080 | the reconciler leaves the table and outcome of one specified step |
| `Reconcile.ClosedForm` | src/avtools/core/av_tools.py:1969-2080 | one committed step in closed form: it fails exactly when a first run meets a duplicate id, and the breaker raises exactly when deletes are allowed, mass delete is not, and more than half of a non-empty cache would go |
| `Reconcile.ClosedFormFullySet` | src/avtools/core/av_tools.py:1969-2080 | when an empty diff means equal rows, the table becomes the converted view, or the old table overridden by it |
| `Reconcile.StepRemovesAtMostHalf` | src/avtools/core/av_tools.py:1994-2024 | whatever upstream returns, a step without the override keeps at least half of the rows and removes only rows absent from a committed view it was allowed to delete by |
| `Reconcile.RunNeverEmpties` | src/avtools/core/av_tools.py:2005-2024 | over every run of steps the table at most halves per step, so a non-empty table never becomes empty |
| `Reconcile.DisappearanceIsJustified` | src/avtools/core/av_tools.py:1990-2024 | a row that is gone after a run was absent from the view of some committed step that was allowed to delete |
| `Reconcile.SecondGuard` | src/avtools/core/av_tools.py:2011-2024 | the guards of the next identical run: refused ids are refused again only while they outnumber the upstream ids |
| `Reconcile.RerunIsIdleIff` | src/avtools/core/av_tools.py:1994-2051 | re-running with the same items, after a first run into an empty table or any later one and in whatever order either run iterates its sets, inserts and updates nothing, and leaves the table alone exactly when no refusal is forgotten; a forgotten one deletes the rows it had protected |
| `Reconcile.FailedRunRepeats` | src/avtools/core/av_tools.py:1969-1978 | a committing run fails exactly when it is a first run over duplicate ids, and then every re-run fails the same way |
| `RunLandb.AvTools.Run` | src/avtools/core/av_tools.py:735-910 | the orchestrator leaves the table and status of one specified cycle, for every exception it handles |
| `RunLandb.RunLandbCommand` | src/avtools/main.py:213-238 | the command's exit code and heartbeat follow from the cycle's status string |
| `RunLandb.FailureStatuses` | src/avtools/main.py:87-103 | of all statuses only `ok` and the empty-snapshot skip count as success |
| `RunLandb.CommittedSync` | src/avtools/core/av_tools.py:852-861 | a committed LanDB reconciliation: the join exactly, or the old table overridden by it when the view is partial or the breaker trips |
| `RunLandb.ReconcilingCycle` | src/avtools/core/av_tools.py:827-890 | the table and status of every cycle that commits |
| `RunLandb.PartialRowsAreRight` | src/avtools/core/av_tools.py:852-881 | after a committing cycle, degraded or not, every row is the one of the naive join or was there before, as long as names determine devices and no device was lost to a failed serial-number chunk |
| `RunLandb.OtherCycle` | src/avtools/core/av_tools.py:748-881 | every other cycle leaves the table alone and ends with another status |
| `RunLandb.StatusTellsCause` | src/avtools/core/av_tools.py:748-881 | two runs that an exception ended have the same status exactly when it was the same exception of the same stage |
| `RunLandb.StatusTextOfCause` | src/avtools/core/av_tools.py:748-881 | each exception's status string |
| `RunLandb.RunsKeepNormal` | src/avtools/postgres/inventory/orm/landb_ipaddress.py:290-322 | every sequence of cycles keeps cells trimmed and rows under their own key |
| `RunLandb.HeartbeatIff` | src/avtools/main.py:231-238 | a cycle emits the heartbeat exactly when the snapshot was empty, or it committed over a complete fetch that the breaker did not refuse |
| `RunLandb.HeartbeatGuarantee` | src/avtools/main.py:213-238 | in any sequence of cycles, a heartbeat means that its cycle left the table equal to the join of a fetch with no failed chunk (the naive join when names determine devices), or that the snapshot was empty and the table untouched |
| `RunLandb.HeartbeatRowsDescribe` | src/avtools/core/av_tools.py:827-890 | after a heartbeat over a non-empty snapshot every row of the table is of some EAM record, column by column |
| `RunLandb.HeartbeatRowsComplete` | src/avtools/core/av_tools.py:827-890 | and every record whose device has an address has its row, with the columns of the first device with its serial number, else of the first its description names, and of that device's first IP record (when names determine devices) |
| `RunLandb.RowLeavesOnlyWhenOk` | src/avtools/core/av_tools.py:883-890 | a row leaves the table only in a cycle that ends `ok`, absent from its complete join, and never more than half at once |
| `RunLandb.FleetNeverVanishes` | src/avtools/core/av_tools.py:141-150 | no sequence of cycles, with any answers and failures, empties a non-empty table |
| `Text.CleanIffFixed` | src/avtools/utils/eam_sanitizer.py:45-67 | trimming is idempotent: a text is a fixed point exactly when neither end is droppable |
| `Text.SanitizedIsFixed` | src/avtools/utils/eam_sanitizer.py:45-67 | sanitised text is a fixed point of the sanitiser and of the converters' trimming |
| `Text.NoneIfBlankIsFixed` | src/avtools/postgres/inventory/orm/landb_ipaddress.py:26-40 | trimming twice is trimming once, and never leaves an empty text |
| `Text.NoneIfBlankMeaning` | src/avtools/postgres/inventory/orm/landb_ipaddress.py:26-40 | converted text is what lies between the first and the last visible character, or null when there is none |
| `Text.SanitizeMeaning` | src/avtools/utils/eam_sanitizer.py:45-67 | likewise sanitised text, with the sanitiser's class of characters |
| `Text.RemainsOnce` | src/avtools/utils/eam_sanitizer.py:45-67 | which determines it |
| `Text.IntTextInjective` | src/avtools/timeseries/encoder.py:407 | decimal rendering of indices is injective, negative ones included |
| `Text.IntTextReadsBack` | src/avtools/timeseries/encoder.py:407 | a rendered integer reads back digit by digit, with a minus sign in front of negative ones |
| `Text.TrimMeaning` | src/avtools/utils/eam_sanitizer.py:45-67 | trimming removes droppable characters from the two ends, all of them, and nothing else |
| `EamSync.CleanItems` | src/avtools/utils/eam_sanitizer.py:69-131 | the cleaning loop keeps the code and the set fields, and of each field's text everything between its first and last character that is not junk |
| `EamSync.CleaningIsFixed` | src/avtools/utils/eam_sanitizer.py:69-131 | cleaning makes every set field a fixed point of the sanitiser and of the converters |
| `EamSync.StoredMeaning` | src/avtools/postgres/inventory/orm/eam_device.py:158-180 | a record converts to a row under its trimmed id with the trimmed text of every stored field that has one, or to none when the id is blank |
| `EamSync.RoundTripShowsNoChange` | src/avtools/postgres/inventory/orm/eam_device.py:158-215 | the ORM round trip preserves every compared text field of a clean item |
| `EamSync.EamRerunIsIdle` | src/avtools/core/av_tools.py:2082-2154 | reconciling the same clean, trimmed items again, from any table and in any iteration order, inserts and updates nothing, and changes the table exactly when a refusal is forgotten |
| `EamSync.RefusalIsForgotten` | src/avtools/core/av_tools.py:2005-2051 | the failing input: one cached row and one other record upstream; the breaker protects the row once, and the identical next run deletes it |
| `EamSync.UncleanedTextChurns` | src/avtools/utils/eam_sanitizer.py:45-67 | without cleaning there is no fixpoint: a text that trimming keeps and sanitising changes is updated again by the run after any number of runs exactly when the first run wrote it |
| `EamSync.ZeroWidthSpaceIsUncleaned` | src/avtools/utils/eam_sanitizer.py:45-67 | a text that ends in a zero-width space is such a text |
| `EamSync.UntrimmedIdNeverSettles` | src/avtools/core/av_tools.py:1980-1988 | an item whose id is not trimmed is inserted again by the run after any number of runs, from any table with trimmed keys |
| `EamSync.SettlesIffTrimmed` | src/avtools/core/av_tools.py:1980-2041 | of clean items with ids, after a run that did not fail the next one inserts and updates nothing exactly when every id is trimmed |
| `EamSync.UntrimmedIdCollides` | src/avtools/core/av_tools.py:1980-1988 | when the trimmed id is a stored key the run fails unless it deletes that row, which it does exactly when upstream lacks the trimmed id and the guards let it |
| `EamSync.SpacedIdFails` | src/avtools/core/av_tools.py:1969-1988 | the id " x" alone upstream: the first run stores it under "x", and the next fails and leaves the table as it was |
| `EamSync.UnsetFieldsLingerIff` | src/avtools/postgres/inventory/client.py:267-274 | after a committed run the row of a record both sides have is its converted item unless its diff was empty and it holds a column the item leaves unset; such a column is kept when the diff is empty and nulled when it is not |
| `EamSync.LingersThenNulled` | src/avtools/postgres/inventory/client.py:267-274 | over two runs: a column both leave unset outlives the first, whose diff is empty, and is nulled by the second, in which another field differs |
| `EamSync.StaleDescription` | src/avtools/postgres/inventory/client.py:267-274 | a device row at which that happens |
| `EamSync.KeysStayTrimmed` | src/avtools/postgres/inventory/orm/eam_device.py:158-180 | every step, whatever upstream sends, keeps stored keys trimmed and non-blank |
| `RoomClimb.ResolveMeaning` | src/avtools/algorithms/room_resolver.py:149-208 | on every position map the answer is the deepest-climbed room of the one maximal repetition-free parent path cut to 101 nodes, or the no-parent marker if that has none |
| `RoomClimb.BuildIndexMeaning` | src/avtools/algorithms/room_resolver.py:86-97 | a number is indexed exactly when some position row bears it, with its last such row |
| `RoomClimb.ResolveByRows` | src/avtools/algorithms/room_resolver.py:133-208 | by the position rows alone: the no-position marker for an anchor that is null or that no row bears, else the last room among the first 101 positions of the climb along the rows' own parent links, or the no-parent marker |
| `RoomClimb.MarkersByRows` | src/avtools/algorithms/room_resolver.py:149-162 | when no row bears a marker's name, each marker is given exactly for what it says |
| `RoomClimb.NoPositionIff` | src/avtools/algorithms/room_resolver.py:149-162 | the answer is the no-position marker exactly for a null or unindexed anchor, or one that climbs to a room named so |
| `RoomClimb.NoParentIff` | src/avtools/algorithms/room_resolver.py:149-162 | the answer is the no-parent marker exactly for an indexed anchor without a room on its path, or with one named so |
| `RoomClimb.MarkersExactIff` | src/avtools/algorithms/room_resolver.py:149-162 | both markers say what their names say, for every anchor, exactly when no anchor climbs to a room named like a marker |
| `RoomClimb.UnmarkedRoomsAreExact` | src/avtools/algorithms/room_resolver.py:149-162 | an index without a room named like a marker is enough for that |
| `RoomClimb.MarkerRoomMisleads` | src/avtools/algorithms/room_resolver.py:149-162 | an index with one such room, on which the marker is given to an indexed position |
| `RoomClimb.FullPathUnique` | src/avtools/algorithms/room_resolver.py:178-191 | there is exactly one maximal repetition-free parent path from an anchor |
| `RoomClimb.TopmostRoomUnique` | src/avtools/algorithms/room_resolver.py:164-191 | the topmost room of a path is unique |
| `RoomClimb.DepthGuardBitesIff` | src/avtools/algorithms/room_resolver.py:46-47 | the depth guard changes the answer exactly when a room lies past node 101 |
| `RoomClimb.DepthGuardIdle` | src/avtools/algorithms/room_resolver.py:178-191 | with at most 101 indexed positions the depth guard never changes a result |
| `RoomClimb.ClimbIsStructural` | src/avtools/algorithms/room_resolver.py:164-191 | on an acyclic chain of at most 101 nodes the climb is the recursion: the parent's room if it has one, else the node itself if it is a room |
| `RoomClimb.CycleAgreesOnExistence` | src/avtools/algorithms/room_resolver.py:178-208 | all members of a parent cycle of at most 101 nodes agree on whether there is a room |
| `RoomClimb.CycleAgreesOnRoomIff` | src/avtools/algorithms/room_resolver.py:178-208 | they agree on which one exactly when the cycle holds at most one room |
| `RoomClimb.RoomResolver.ResolveOne` | src/avtools/algorithms/room_resolver.py:133-147 | whatever the memo holds the answer is the uncached one, and the memo gains exactly it |
| `RoomClimb.RoomResolver.ResolveUncached` | src/avtools/algorithms/room_resolver.py:149-162 | the no-position marker for a null or unindexed anchor, else the room the guarded path climbs to, or the no-parent marker if there is none |
| `RoomClimb.RoomResolver.ClimbToTopmostRoom` | src/avtools/algorithms/room_resolver.py:164-191 | the guarded loop finds the topmost room of the guarded path |
| `SyncRooms.ResolveRooms` | src/avtools/core/av_tools.py:667-689 | one room per device in order, the uncached result whatever the memo holds when each is resolved |
| `SyncRooms.SyncRoomsOnce` | src/avtools/core/av_tools.py:564-665 | the orchestrator leaves the table and status of one specified refresh; what its rows hold is `SyncRooms.RefreshedByRows` |
| `SyncRooms.RefreshedView` | src/avtools/core/av_tools.py:606-689 | after a run that ends `ok` the table has one row per device with its position and uncached climb result, and the resolution time moves exactly on rows whose position or room changed |
| `SyncRooms.RefreshedByRows` | src/avtools/core/av_tools.py:606-689 | the same from the position rows alone, without the index: each device's room is found along their own parent links, and without rows named like markers a device has the no-position marker exactly when its anchor is null or no row bears it |
| `SyncRooms.FailuresKeepKind` | src/avtools/core/av_tools.py:580-665 | a failed load or commit leaves the table alone and ends the run with its own kind of error |
| `Targets.LoadTargets` | src/avtools/core/av_tools.py:1310-1351 | the loaded targets are those of the rows with a number and an address: each with its trimmed number, the trimmed part of its address before the first slash, and everything else as it is; in row order |
| `Targets.LoadOneMeaning` | src/avtools/core/av_tools.py:1328-1351 | a row loads as at most one target, and which one |
| `Targets.BeforeSlashMeaning` | src/avtools/core/av_tools.py:1339-1341 | a CIDR's address is everything before the first slash |
| `Dispatch.WhoIsAsked` | src/avtools/snmp/factories/device_factory.py:69-116 | which class, make and model is asked for what, by the request: Epson projectors, the two Server Technology series, codecs and matrices of known makes; all others nothing |
| `Dispatch.FamiliesExclude` | src/avtools/snmp/queries/registry.py:10-22 | the query specs exclude one another, so each target is queried as the one family it matches |
| `Dispatch.CodeMeaning` | src/avtools/snmp/factories/device_factory.py:83 | a code is the trimmed, upper-cased text, or the default's |
| `Dispatch.PduModelMeaning` | src/avtools/snmp/factories/pdu_factory.py:50-63 | a vendor in front of a bare model name is dropped |
| `Walks.WalkIndexed` | src/avtools/snmp/handlers/abstract_device_handler.py:196-209 | the column walk fills an insertion-ordered dictionary |
| `Walks.IndexedMeaning` | src/avtools/snmp/handlers/abstract_device_handler.py:203-209 | its keys are pairwise distinct |
| `Walks.LastRowWins` | src/avtools/snmp/handlers/abstract_device_handler.py:203-209 | rows without an integer last arc are skipped and the last row of an index wins |
| `Walks.NameMeaning` | src/avtools/snmp/handlers/parsing.py:118-141 | a name is the trimmed text reading unless that is one of the agent's exception markers |
| `Walks.CounterMeaning` | src/avtools/snmp/handlers/abstract_device_handler.py:211-278 | a counter is the integer reading of the last row of its index |
| `Walks.LoopbackMeaning` | src/avtools/snmp/handlers/abstract_device_handler.py:252-262 | a loopback is an interface whose type column says 24 |
| `Walks.FetchOutlets` | src/avtools/snmp/handlers/pdu.py:194-241 | nothing when state and current are both empty; else strictly ascending entries, one per index of the state, current, power and energy columns, each reading from its own column |
| `Walks.MergeIsUnique` | src/avtools/snmp/handlers/pdu.py:217-241 | that promise determines the result |
| `Walks.StatesAreNormal` | src/avtools/snmp/handlers/pdu.py:225-227 | with either vendor's enum every outlet state is 0, 1 or 2 |
| `Walks.MergedIsRead` | src/avtools/snmp/handlers/pdu.py:194-241 | each entry of the merge by the walked rows: state, scaled current, power and energy, and name of the last row of its index in each column |
| `Walks.VendorStates` | src/avtools/snmp/handlers/pdu.py:225-227 | an outlet is on or off by its vendor's own codes, and other by every other code |
| `Walks.FetchSensors` | src/avtools/snmp/handlers/pdu.py:243-296 | one entry per index with a numeric value: named from its own column, scaled, and in Celsius, from which a Fahrenheit reading converts back; with distinct indices |
| `Walks.FetchInterfaces` | src/avtools/snmp/handlers/abstract_device_handler.py:211-278 | one entry per walked, non-loopback index, with status, octets, errors and description each from its own column, counters only when asked for, and distinct indices |
| `Walks.Severity` | src/avtools/snmp/handlers/pdu.py:160-178 | 2 exactly when some read status is critical, else 1 when some warns, else 0; absent when none was read |
| `Walks.FetchPduTables` | src/avtools/snmp/handlers/pdu.py:180-192 | the tables of a PDU answer are the merged outlets and the sensors of the temperature and of the humidity table, distinctly indexed |
| `PingProtocol.PingHost` | src/avtools/snmp/client.py:369-406 | by the retries knob alone: the first reply among the first attempt and the retries decides with its attempt's number; without one all of them were used and the last failure is reported; a negative knob leaves one attempt |
| `PingProtocol.DecidedOnce` | src/avtools/snmp/client.py:369-406 | that outcome is unique |
| `PingProtocol.RetriedOnce` | src/avtools/snmp/client.py:195-197 | the knob and the answers determine the outcome |
| `PingProtocol.StepKeepsInv` | src/avtools/snmp/client.py:389-404 | every scheduler step conserves permits held plus free and keeps every host's history |
| `PingProtocol.EveryRunKeepsInv` | src/avtools/snmp/client.py:389-404 | in every reachable state of one worker at most `concurrency` attempts are in flight (one when the knob is not positive), sleeping hosts hold no permit, and a finished host has the outcome its knob and answers determine |
| `PingProtocol.StageBound` | src/avtools/core/av_tools.py:1762-1771 | several workers at once have at most their number times the cap in flight, as each has its own semaphore |
| `PingProtocol.CapIsReached` | src/avtools/snmp/client.py:389-404 | a worker with enough hosts can have any number of attempts up to its cap in flight |
| `PingProtocol.Progress` | src/avtools/snmp/client.py:391-404 | a state with work left can always step |
| `PingProtocol.RunLength` | src/avtools/snmp/client.py:389-404 | no run is longer than three moves per attempt and host, with one attempt more than retries, or one |
| `PingProtocol.MaximalRunsAgreeWithSequential` | src/avtools/snmp/client.py:369-447 | in every interleaving, a run that cannot go on has given each host the outcome of its own sequential retry loop and returned all permits |
| `Backoff.MaxBudget` | src/avtools/snmp/client.py:199-216 | the accumulating loop computes one timeout for the first attempt and for each retry, plus the worst delays between them |
| `Backoff.UncutBudget` | src/avtools/snmp/client.py:199-216 | while the ceiling cuts no delay they double, so they add up to the next delay minus the first, plus the jitter of each |
| `Backoff.JitterTotal` | src/avtools/snmp/client.py:199-216 | which is their number times the jitter knob |
| `Backoff.CutBudget` | src/avtools/snmp/client.py:199-216 | when the ceiling cuts every delay they are all the ceiling plus jitter |
| `Backoff.SleepWithinBudget` | src/avtools/snmp/client.py:356-367 | when the knobs are sound, for any draws, the sleep of a host stays within the budget minus attempts times timeout |
| `Backoff.BudgetHoldsIff` | src/avtools/snmp/client.py:199-216 | for all knobs the budget bounds the sleep of every run exactly when there is one attempt, or neither the jitter nor any worst-case delay is negative |
| `Backoff.NonNegativeIsSound` | src/avtools/snmp/client.py:199-216 | non-negative knobs are sound for any number of retries |
| `Backoff.ElapsedBound` | src/avtools/snmp/client.py:301 | for sound knobs, with each attempt killed at its deadline, a host takes at most 2 s per attempt beyond the budget |
| `Backoff.ElapsedBoundIsTight` | src/avtools/snmp/client.py:301 | some run takes exactly that long |
| `Collection.SplitEvenly` | src/avtools/core/av_tools.py:1752-1760 | the round-robin loop deals the items as specified |
| `Collection.SplitEvenMeaning` | src/avtools/core/av_tools.py:1752-1760 | the split is lossless, into non-empty chunks whose sizes differ by at most one |
| `Collection.BuildHandlers` | src/avtools/snmp/factories/device_factory.py:118-145 | one handler per address, the first target with it winning |
| `Collection.FirstHandlerWins` | src/avtools/snmp/factories/device_factory.py:126-141 | the handler of an address is that of the first target bearing it |
| `Collection.FirstTargetDecides` | src/avtools/snmp/factories/device_factory.py:126-141 | for one row order: when the first target of an address is told something else than a queried target there would be, one worker and many give different query results |
| `Collection.Collect` | src/avtools/core/av_tools.py:1752-1859 | the staged collection with a barrier and a fresh split between stages; what it gives each target is `Telemetry.EachTargetCollected` |
| `Collection.CollectedIsSolo` | src/avtools/core/av_tools.py:1762-1859 | for every worker count, when handlers that share an address are answered alike: one ping and one probe per device, and query and interface answers only of SNMP-alive devices, each as through the device's own handler |
| `Collection.WorkerIndependenceIff` | src/avtools/snmp/factories/device_factory.py:118-145 | row order and worker count never change the results, over every network or over those whose answers depend on address and request alone, exactly when no queried target shares its address with one whose handler asks for something else; over networks with one consistently answering device per address, exactly when the handlers there get the same of what the target's family reads |
| `Encoder.EncodePing` | src/avtools/timeseries/encoder.py:93-116 | the loop emits a status sample and, when known, a round-trip sample per named result |
| `Encoder.EncodeProbe` | src/avtools/timeseries/encoder.py:119-140 | one status sample per named probe result |
| `Encoder.EncodePdu` | src/avtools/timeseries/encoder.py:202-319 | scalars, status texts, sensors and outlets of a PDU answer, in order |
| `Encoder.EncodeQueries` | src/avtools/timeseries/encoder.py:142-340 | the samples of each named query result, by device family; which those are is `Readings.QuerySamplesIff` |
| `Encoder.EncodeInterfaces` | src/avtools/timeseries/encoder.py:376-424 | the samples of each indexed interface of each named result |
| `Encoder.EncodeAll` | src/avtools/timeseries/encoder.py:348-373 | the four stages in order |
| `Encoder.TierMembers` | src/avtools/timeseries/metrics.py:388-418 | the tiers' exact metric sets and the metrics' tiers are the same classification |
| `Readings.ReachabilitySamplesIff` | src/avtools/timeseries/encoder.py:93-140 | both ways, over whole result lists: a ping or probe sample is published exactly when a named result has that status or round-trip time under those labels |
| `Readings.PingReadsBack` | src/avtools/timeseries/encoder.py:107-116 | from the published samples about a device its ping result is read back: its one status, and its round-trip time exactly when it has one |
| `Readings.ProbeReadsBack` | src/avtools/timeseries/encoder.py:132-140 | likewise for the probe status |
| `Readings.InterfaceSamplesIff` | src/avtools/timeseries/encoder.py:399-424 | both ways: an interface sample is published exactly when an indexed interface of a named device has that reading under that metric and those labels |
| `Readings.PduSamplesIff` | src/avtools/timeseries/encoder.py:202-319 | both ways: a PDU sample is published exactly when a scalar, text, sensor or outlet has that reading; no statistic of the tables is skipped |
| `Readings.QuerySamplesIff` | src/avtools/timeseries/encoder.py:142-340 | both ways over whole result lists and for every family: a projector, PDU, codec or matrix sample is published exactly when a named result of that family has that reading under that metric and those labels, firmware included |
| `Readings.BaseLabelsMeaning` | src/avtools/core/av_tools.py:1466-1484 | a target's labels are its equipment number and whichever of building, room, class, model, category and host name are known, each under its own key |
| `Encoder.GuardrailIdentityIff` | src/avtools/pipeline/snmp_router.py:42-82 | two emitters share a guardrail label set exactly when they are the same shard (or the fleet is unsharded) and the same tier |
| `SeriesIdentity.OutletRow` | src/avtools/timeseries/encoder.py:296-319 | the samples of one outlet are pairwise distinct and carry its equipment number and index |
| `SeriesIdentity.PduDistinct` | src/avtools/timeseries/encoder.py:202-319 | all samples of one PDU answer are pairwise distinct |
| `SeriesIdentity.BuiltLookupIsPlain` | src/avtools/core/av_tools.py:1466-1484 | enrichment labels never override the equipment number |
| `SeriesIdentity.NoSeriesCollapse` | src/avtools/timeseries/encoder.py:142-424 | for results of distinct devices with distinctly indexed rows, all samples of a cycle with its guardrails have pairwise distinct metric and label map |
| `LabelKeys.KeysAreDisjoint` | src/avtools/core/av_tools.py:1429-1437 | no label key a sample can carry is one of the deployment's global keys |
| `LabelKeys.EncodedKeyed` | src/avtools/timeseries/encoder.py:48-65 | encoded samples carry only known label keys, for every input |
| `Ownership.EncodedOwned` | src/avtools/timeseries/encoder.py:93-424 | every encoded sample is of a device metric and carries the equipment number of some result, whatever the answers hold |
| `Conservation.Process` | src/avtools/pipeline/snmp_router.py:156-259 | encoding, guardrails and tier filter in the order `process` applies them |
| `Conservation.RunIsSumOfDevices` | src/avtools/core/av_tools.py:1466-1484 | a run's samples are, up to order, those of each of its devices monitored on its own, for every worker count |
| `Conservation.ShardsPartition` | src/avtools/core/av_tools.py:153-169 | for every N and any checksum function each device is in exactly one shard: the shards together contribute what the fleet does |
| `Conservation.TiersPartition` | src/avtools/timeseries/metrics.py:388-418 | the four tiers split the device samples without loss or overlap |
| `Conservation.JobOutput` | src/avtools/pipeline/snmp_router.py:245-259 | the device series of one job are those of its shard's devices in its tier, whatever its worker count and duration |
| `Conservation.ShardsTimesTiersConserve` | src/avtools/core/av_tools.py:1442-1455 | for every N, the union over N shards and four tiers of published device samples is exactly the unsharded `all` run's, none lost and none doubled |
| `Deployment.CycleSeriesDistinct` | src/avtools/pipeline/snmp_router.py:203-259 | no two samples of one job's cycle share a series when targets have distinct equipment numbers, also when they share addresses |
| `Deployment.RunAnswers` | src/avtools/core/av_tools.py:1762-1859 | for any targets and worker count each stage's results name targets of the run, and at most one result each when equipment numbers are distinct |
| `Deployment.JobsNeverShareASeries` | src/avtools/pipeline/snmp_router.py:42-82 | two jobs of a deployment (different shard or tier) never publish the same series, device or guardrail, whatever rows they read and answers they got, at different times |
| `Deployment.GuardrailsNeverVanish` | src/avtools/core/av_tools.py:1498-1521 | every cycle, also one with no targets, and whatever its targets and answers, publishes each coverage guardrail exactly once under every tier: its number of targets, as many polled, and a ratio of 1, or of 0 without targets; labelled with the shard's number when there are several and with the requested tier unless it is all |
| `Deployment.DurationPublished` | src/avtools/pipeline/snmp_router.py:237-244 | a cycle with targets and a known duration publishes it exactly once, and no other cycle publishes one |
| `Deployment.CoverageIsAlwaysFull` | src/avtools/pipeline/snmp_router.py:215-236 | every coverage ratio sample that a cycle with targets publishes has value 1, whatever the targets and the network |
| `Deployment.NoUnreachableTargets` | src/avtools/core/av_tools.py:1530-1537 | of any loaded targets every one is either polled or failed equipment |
| `Deployment.CycleExportsEverySample` | src/avtools/timeseries/otlp_publisher.py:226-281 | with the deployment's global labels the guard never fires, and, when equipment numbers are distinct, every sample of a cycle is exported with its own value and its labels plus the global ones |
| `Telemetry.EachTargetCollected` | src/avtools/core/av_tools.py:1762-1859 | every target has exactly one ping result, up or down as its ping was and with a time only when up, and exactly one probe result; query and interface results only when its probe is up, and an interface result exactly when its walk is not empty either |
| `Telemetry.QueryResults` | src/avtools/core/av_tools.py:1800-1859 | a query result is of a target whose probe is up, and is what a handler built for a target at its address was answered |
| `Telemetry.OwnQueryResults` | src/avtools/core/av_tools.py:1800-1859 | when handlers that share an address agree, the query results are exactly what each target's own handler was answered |
| `Telemetry.CycleSaysIff` | src/avtools/pipeline/snmp_router.py:156-259 | end to end and both ways: a device sample is published by a job exactly when its metric is of the job's tier and some target in the job's shard has that reading, from the network and the fleet alone, under the target's own labels; shared addresses matter only for what handlers return |
| `Publisher.SortedMeaning` | src/avtools/timeseries/otlp_publisher.py:229-231 | sorting label pairs by code point order gives strictly ascending keys and keeps the pairs |
| `Publisher.TuplesAreCanonical` | src/avtools/timeseries/otlp_publisher.py:229-231 | two samples have equal sorted label tuples exactly when their label maps are equal, in whatever order their labels came |
| `Publisher.LabelMapMeaning` | src/avtools/timeseries/otlp_publisher.py:226-233 | a sample's labels are its items that have a text |
| `Publisher.Group` | src/avtools/timeseries/otlp_publisher.py:226-233 | the grouping loop fills metric and tuple with the last value |
| `Publisher.GroupedMeaning` | src/avtools/timeseries/otlp_publisher.py:226-233 | an entry exists exactly for tuples some sample has, with the value of the last such sample |
| `Publisher.GuardMeaning` | src/avtools/timeseries/otlp_publisher.py:235-248 | the guard over tuples fires exactly when some sample's label map has a global key |
| `Publisher.MergeInjectiveIff` | src/avtools/timeseries/otlp_publisher.py:268-271 | merging global labels keeps label sets over given keys apart exactly when none of the keys is global |
| `Publisher.OneObservationEach` | src/avtools/timeseries/otlp_publisher.py:250-281 | past the guard each label set of a metric is exported exactly once, with the value given last |
| `Publisher.EverySampleExportedIff` | src/avtools/timeseries/otlp_publisher.py:226-281 | every sample is exported with its own value exactly when no two samples of one metric and label map disagree |
| `Publisher.FlushWithRetry` | src/avtools/timeseries/otlp_publisher.py:286-299 | at most three attempts, stopping at the first that confirms, sleeping 0.75 s times the attempt between them |
| `Publisher.OtlpPublisher.Populate` | src/avtools/timeseries/otlp_publisher.py:250-281 | each batch metric has its store replaced and its gauge registered once; others are untouched |
| `Publisher.OtlpPublisher.Publish` | src/avtools/timeseries/otlp_publisher.py:208-313 | a collision raises before any store or instrument changes; otherwise stores and instruments are updated, the provider is shut down, and the result says whether some flush confirmed |
| `Publisher.OtlpPublisher.Observe` | src/avtools/timeseries/otlp_publisher.py:264-271 | a gauge's callback yields each entry of its store exactly once, with the global labels merged in |

## Left out

- HTTP, OAuth, SNMP, `ping` processes, gRPC and SQLAlchemy themselves: only their answers and failures appear, as parameters.
- Logging, reporting, Sentry, CLI wiring, environment variables, clocks, and interruption from the keyboard.
- Commission dates: parsing and formatting rest on the standard library, so that field is not part of the round-trip claims.
- Rounding of ratios, durations and temperatures; readings are reals, and the breaker is the integer test that twice the deletes exceed the cache.
- The checksum of the shard test is an arbitrary function to naturals, so nothing is said about balance between shards.
- Coercion of values that are not text, in converters and label values, and of raw SNMP values to numbers.
- Iteration order of sets is a parameter of the reconciliation; dictionary order of exported observations is not fixed.
- Concurrent writers: each job is the only writer of its table.
- Exceptions of single SNMP queries, which abort a whole collection; a cycle here has answers for every device it asked.
- Failure-text classification and MIB resolution: single-branch text tests.
- Upper-casing of characters outside ASCII in handler dispatch and query matching, and a handler constructor that raises.
- Heartbeats of `run-eam` and `sync-rooms`, which do not depend on a status.
- Projector and device-description rows written to the monitoring tables.
- A chunk size below 1: zero raises, and a negative one asks for nothing.
- Collection.FirstTargetDecides: for one fixed row order it says when results differ; the exact condition, `Collection.WorkerIndependenceIff`, is over the row orders the table may be read in.
- SyncRooms.RefreshedView: speaks of runs that end `ok`; a refused run keeps stale rows, as `Reconcile.ClosedForm` describes.
- Backoff.ElapsedBound: does not count semaphore waits, process start and the reaping of a killed process.
- Deployment.CycleSeriesDistinct: that answers are distinctly indexed is a condition here; `Walks` proves it of the PDU and interface walks, the other families having no rows.
