# ScalienDB in Dafny

ScalienDB's controllers keep the schema of a cluster (databases, tables, shards, quorums of shard
servers) as a replicated state machine; its client library buffers writes and sends requests to the
shard that holds a key. This project models both and proves what they rely on.

The files, from the bottom up:

- `Bytes`, `KeyedLists`, `Decimal`: byte strings in order, lists of numbered objects, numbers as text.
- `Schema` with `ConfigMessages`: the controller's state, the checks of a message before it is proposed
  and its effect when it is applied, as functions. `ConfigState` is the object that the code updates in
  place, proved against these functions.
- `KeyRanges`, `Links`, `SchemaInvariant`, `SchemaSteps`: the well-formed states, and every message keeps
  them. `Runs` and `Membership` carry this over whole runs of the log; `Effects` and `CatalogEffects` say
  what a message does to the keys that clients see, and `EntryEffects` what each kind of entry changes.
- `Guards`, `NameGuards`, `GuardedRuns`: what the checks of messages protect and exactly what they let in,
  entry by entry and over runs.
- `Replication`, `Controllers`, `Catchup`: what the controllers share, that they agree on it, and that one
  that was restored agrees as well.
- `Formatting`, `MessageCodec`, `StateCodec`, `StateReading`, `StateWriting`, `WireFormat`: the text of
  messages and states, its readers and writers, and the format as pieces with colons between them.
- `QuorumProcessor`: the message queue of a controller and the clients that wait for it.
- `PrimaryLeases`, `LeasesAndLog`, `Heartbeats`, `Activation`, `ActivationAndLog`: leases, heartbeats and
  the activation of shard servers, over time and under the entries of the log.
- `ControllerRuns`: whole runs of a controller, in which proposals, entries, requests for leases, reports,
  timeouts, activations, catching up and changes of the master come in any order. `ControllerCode` proves
  that the handlers of the managers take these steps, and `ManagerEffects` says what each of them changes.
  `Proposals` derives the log from what such controllers propose. `Marks` follows the split and the
  migration that a controller has in mind.
- `RequestProxy`, `ListResponse`, `Listing`, `KeyListing`, `RequestQueues`, `Routing`: the client's write
  buffer, listings through it, its queues, and the way to a shard.
- `Checksum`: the checksum of a buffer against its bitwise definition.
- `Witnesses`: inputs at which the properties that do not hold of the code fail.

In the classes an assertion that fails and a null pointer that is followed are modelled by a result: a
method that returns `ok == false` stands for a controller that stops. Time, the set of live nodes, the
role of a controller and the answers of servers are parameters. `dafny verify dfyconfig.toml` checks
everything.

Some properties that the code suggests do not hold of it. For each the exact condition is proved, and a
lemma gives an input at which it fails:

- A message that was accepted can still fail an assertion when it is applied: `SchemaSteps.AcceptedStep`
  says when. The three conditions concern an activating node that is not registered, the completion of a
  truncation that is not under way, and a migration whose target quorum was deleted
  (`Witnesses.ActivatedNodeUnknown`, `Witnesses.NoTruncationUnderWay`, `Witnesses.MigrationTargetGone`).
- The check itself fails an assertion for the completion of a split whose shard is gone, which stops the
  controller: `SchemaSteps.CheckStops`, `Witnesses.SplitShardGone`.
- A quorum can be created without nodes, and its message cannot be read back:
  `MessageCodec.MessageRoundTrip`, `QuorumProcessors.AcceptedButUnreadable`.
- A database with an empty name and a number below ten cannot be read back: `StateCodec.StateRoundTrip`,
  `Witnesses.NamelessDatabase`.
- A quorum created with the same node twice has unsound member lists: `Membership.MembersStep`,
  `Witnesses.SameNodeTwice`. From such a quorum the last active node can be removed, which the check
  otherwise prevents unless a deactivation is forced: `Guards.LastActiveKept`, `Witnesses.LastActiveRemoved`.
- A node that is not registered can become a member: `Guards.RegisteredStep`, `Witnesses.UnregisteredAdded`.
- Two quorums can have the same name: `NameGuards.QuorumNamesStep`, `Witnesses.SameDefaultName`.
- A controller that is not the leader keeps a migration in mind after it has completed:
  `Runs.MigrationStep`, `Witnesses.FinishedMigrationKept`.
- The handler of a late activation fails an assertion while a quorum replicates:
  `Activation.ConfigActivationManager.OnActivationTimeout`, `Witnesses.ReplicatingIsLate`.
- A listing shows a deleted key, or crashes, if the table does not hold that key:
  `Listings.ListingIsOverlay`, `KeyListings.KeyListingIsOverlay`, `Witnesses.DeleteOfAbsentKey`.
- A lease can be shortened by its own holder: `PrimaryLeases.GrantKeptUntilItsEnd`,
  `PrimaryLeases.ShorterExtension`.

## Model

| member | source | states |
|---|---|---|
| `SchemaSteps.AcceptedStep` | src/Application/ConfigState/ConfigState.cpp:155-224 | for every kind of message and every well-formed state: an accepted message fails no assertion of its handler if and only if a condition made of lookups (`Applicable`) holds, and then the new state is well-formed: two-way links, shard ranges that partition the key space of each table, numbers below their counters, unique names |
| `SchemaSteps.StepKeeps` | src/Application/ConfigState/ConfigState.cpp:368-438 | the same for the handler alone, and for a completed migration even where it was not checked before, given that its destination number was set aside |
| `SchemaSteps.CheckStops` | src/Application/ConfigState/ConfigState.cpp:958-968 | in a well-formed state the check of a message fails one of its assertions if and only if the message is the completion of a split whose shard is gone |
| `SchemaSteps.OnTruncateTableBeginKeeps` | src/Application/ConfigState/ConfigState.cpp:1374-1414 | truncation never fails an assertion in a well-formed state and leaves one: the one new shard covers the key space again |
| `SchemaSteps.OnSplitShardBeginKeeps` | src/Application/ConfigState/ConfigState.cpp:1433-1468 | a split that was accepted cuts a range in two so that the table is still partitioned |
| `SchemaSteps.OnShardMigrationCompleteKeeps` | src/Application/ConfigState/ConfigState.cpp:1483-1508 | moving a shard to another quorum under a new number keeps partition and links |
| `SchemaInvariant.OnDeleteDatabaseKeeps` | src/Application/ConfigState/ConfigState.cpp:1220-1237 | deleting a database with all its tables and shards leaves no dangling number in any list |
| `SchemaInvariant.OnDeleteTableKeeps` | src/Application/ConfigState/ConfigState.cpp:1299-1314 | deleting a table takes its number out of its database and its shards out of their quorums |
| `SchemaInvariant.DeleteShardKeeps` | src/Application/ConfigState/ConfigState.cpp:1715-1731 | deleting one shard keeps every invariant but the partition of its own table, whatever tables are being deleted around it |
| `KeyRanges.SplitPartition` | src/Application/ConfigState/ConfigState.cpp:925-956 | cutting one range of a partition of the keys at an inner key gives a partition again |
| `Links.OneList` | src/Application/ConfigState/ConfigState.cpp:1624-1637 | a child is on the list of its own parent and on no other list |
| `Runs.ReachableWellFormed` | src/Application/ConfigState/ConfigState.cpp:368-438 | every state reached by a run of the log from the empty state is well-formed; `Proposals.ProposedIsRun` says which logs are runs |
| `Runs.CatalogNumbersNeverReused` | src/Application/ConfigState/ConfigState.cpp:1031-1049 | over a whole run a quorum, database, table or node number that goes out of use never comes back |
| `Runs.ShardNumbersNeverReused` | src/Application/ConfigServer/ConfigQuorumProcessor.cpp:792-842 | the same for shard numbers, which migrations give out as well: a reserved destination is never the number of another shard |
| `Proposals.ProposedIsRun` | src/Application/ConfigServer/ConfigQuorumProcessor.cpp:445-458 | a log in which each entry was proposed by a controller that had followed the log so far, its check accepting the message and the end of a migration naming the numbers that the proposer had noted, is a run in this sense, so the reserved pair of a completed migration is derived |
| `Proposals.AlwaysReserved` | src/Application/ConfigServer/ConfigQuorumProcessor.cpp:792-842 | at every moment of a run of a controller the migration that it has noted has a destination that an entry it applied set aside for its source |
| `Runs.StepWellFormed` | src/Application/ConfigServer/ConfigQuorumProcessor.cpp:592-634 | an entry that some controller accepted, whatever else that controller holds, fails no assertion on any other controller exactly if it is `Applicable` to the replicated part |
| `Runs.StepNumbers` | src/Application/ConfigServer/ConfigQuorumProcessor.cpp:614-629 | one entry only raises the counters, brings back no number once used, and keeps the record of reserved destinations |
| `Runs.ControllerFollows` | src/Application/ConfigServer/ConfigQuorumProcessor.cpp:592-634 | a controller in step with the run, in any role, is well-formed after the next entry and in step again |
| `Runs.MigrationStep` | src/Application/ConfigServer/ConfigQuorumProcessor.cpp:614-629 | after an entry the migration a controller believes in is still under way (source present, destination reserved and unused) if and only if the controller is the leader or the entry is not the completion of that migration |
| `Proposals.TenureKeepsMigration` | src/Application/ConfigServer/ConfigQuorumProcessor.cpp:614-629 | over any stretch of a run of a controller, in particular over the tenure of a leader, the migration that it has noted stays under way as long as no end of it arrives while the controller is not the leader |
| `Proposals.EventKeepsMigration` | src/Application/ConfigServer/ConfigQuorumProcessor.cpp:614-629 | one event of any kind, catching up and timeouts included, keeps it under way if and only if it is not such an end |
| `Replication.OnMessageShared` | src/Application/ConfigState/ConfigState.cpp:368-438 | the effect of an entry on the replicated part depends on the replicated part alone |
| `Replication.AgreeMeans` | src/Application/ConfigState/ConfigState.cpp:226-342 | to agree on the replicated part is to have the same objects in the same places, with the same names, members, shards, ranges, states, parents, endpoints, priorities and counters |
| `Controllers.OnAppendIsShared` | src/Application/ConfigServer/ConfigQuorumProcessor.cpp:592-634 | the same for the processing of an entry with its migration bookkeeping, in either role |
| `Controllers.ReplicasAgree` | src/Application/ConfigServer/ConfigQuorumProcessor.cpp:592-634 | two controllers that agree on the replicated part and apply the same log agree afterwards, whatever roles each had at each entry and whatever only a master knows |
| `Controllers.SchemaAcceptedShared` | src/Application/ConfigState/ConfigState.cpp:155-224 | what a proposer accepted with its own volatile fields is acceptable on the replicated part too |
| `Catchup.CatchupEqualsReplay` | src/Application/ConfigServer/ConfigQuorumProcessor.cpp:711-790 | a controller restored from the text of another one and then given the whole log agrees with one that applied every entry from the start |
| `Catchup.RestoredIsShared` | src/Application/ConfigServer/ConfigQuorumProcessor.cpp:732-785 | restoring succeeds if and only if every database can be read back, and then gives the replicated part of the sender |
| `Effects.SplitKeepsServing` | src/Application/ConfigState/ConfigState.cpp:1433-1468 | a split does not change which quorum serves any key of any table |
| `Effects.MigrationMovesItsKeys` | src/Application/ConfigState/ConfigState.cpp:1483-1508 | a completed migration moves exactly the keys of its shard, all of them to the target |
| `Effects.DeleteTableErases` | src/Application/ConfigState/ConfigState.cpp:1299-1314 | deleting a table takes away that table and its shards and leaves every other table and shard as it was |
| `Effects.DeleteDatabaseErases` | src/Application/ConfigState/ConfigState.cpp:1220-1237 | deleting a database takes away exactly its tables with their shards |
| `CatalogEffects.CreateTableServes` | src/Application/ConfigState/ConfigState.cpp:1239-1280 | every key of a new table is served by the quorum asked for; no other table is touched |
| `CatalogEffects.TruncateServes` | src/Application/ConfigState/ConfigState.cpp:1374-1414 | after truncation one new shard serves all keys, in the quorum of the last shard of the old list; the old shards are gone, no other table is touched |
| `CatalogEffects.FreezeDatabaseFreezes` | src/Application/ConfigState/ConfigState.cpp:1338-1354 | freezing or unfreezing a database sets the flag of exactly its tables and changes nothing else |
| `CatalogEffects.PriorityIsFound` | src/Application/ConfigState/ConfigState.cpp:1163-1185 | the priority that was set is the one that a lookup finds; priorities for other quorums stay |
| `Membership.MembersStep` | src/Application/ConfigState/ConfigState.cpp:1078-1161 | an entry keeps active and inactive nodes sorted, duplicate-free and disjoint if and only if it is not the creation of a quorum with a duplicate in its list |
| `Membership.MoveKeepsUnion` | src/Application/ConfigState/ConfigState.cpp:1116-1161 | activating and deactivating move a node between two disjoint lists whose union stays |
| `Membership.CreateQuorumMembers` | src/Application/ConfigState/ConfigState.cpp:1031-1049 | a new quorum is sound if and only if its list of nodes has no duplicates |
| `Membership.SortedStep` | src/Application/ConfigState/ConfigState.cpp:368-438 | every entry keeps the members and shards of every quorum in order |
| `Membership.ReachableMembers` | src/Application/ConfigState/ConfigState.cpp:368-438 | in every reachable state the lists are in order, and the members of all quorums are sound if every quorum was created with a list free of duplicates |
| `ConfigStates.ConfigState.Init` | src/Application/ConfigState/ConfigState.cpp:91-116 | the object becomes the empty state, whatever it was |
| `ConfigStates.ConfigState.CompleteMessage` | src/Application/ConfigState/ConfigState.cpp:155-224 | the checks by their search loops give the verdict of the specification, and change the state only by marking an accepted split |
| `Guards.LastActiveKept` | src/Application/ConfigState/ConfigState.cpp:662-723 | in a well-formed state an accepted entry that succeeds leaves a quorum that had an active node, and is still there, with one, if and only if it is not the forced deactivation of its only active node, or the removal of it while it is listed as inactive as well; where members are sound only the first is left |
| `GuardedRuns.WithoutActiveNode` | src/Application/ConfigState/ConfigState.cpp:662-723 | in a run of the log a quorum has no active node only if one of these entries took its last one or it was created without nodes |
| `Guards.RegisteredStep` | src/Application/ConfigState/ConfigState.cpp:573-611 | an accepted entry keeps all members of all quorums registered if and only if it does not add an unregistered node to a quorum |
| `GuardedRuns.MembersRegistered` | src/Application/ConfigState/ConfigState.cpp:573-660 | in a run in which every node that is added to a quorum is registered, all members always are |
| `Guards.PriorityStep` | src/Application/ConfigState/ConfigState.cpp:725-742 | an accepted entry gives a node another priority for a quorum only if the node is a member of it and the entry asks for that priority |
| `GuardedRuns.PrioritiesOfMembers` | src/Application/ConfigState/ConfigState.cpp:725-742 | in a run a node has a priority other than 1 only for a quorum of which it was a member when the priority was set |
| `Guards.SettledTargets` | src/Application/ConfigState/ConfigState.cpp:895-981 | splits, truncations and migrations are accepted exactly for quorums without inactive or activating nodes, all quorums of the table in the case of a truncation; a split also needs a key strictly inside its shard, and no other split under way |
| `GuardedRuns.BeginsWhereSettled` | src/Application/ConfigState/ConfigState.cpp:895-981 | where a run splits a shard, truncates a table or begins a migration, the quorums concerned have no inactive node |
| `Guards.ShardStateStep` | src/Application/ConfigState/ConfigState.cpp:920-968 | the state of a shard changes exactly at the end that belongs to its creation: of its split, or of the truncation of its table |
| `GuardedRuns.SettledByItsEnd` | src/Application/ConfigState/ConfigState.cpp:1416-1477 | between two moments of a run at which a shard has different states lies such an end |
| `NameGuards.QuorumNamesStep` | src/Application/ConfigState/ConfigState.cpp:589-632 | names of quorums stay unique if and only if no quorum is created without a name while another has the default name that it gets |
| `GuardedRuns.UniqueQuorumNames` | src/Application/ConfigState/ConfigState.cpp:589-632 | so they are unique in every state of a run in which that does not happen |
| `NameGuards.PrintableStep` | src/Application/ConfigState/ConfigState.cpp:589-838 | an accepted entry keeps all names of quorums, databases and tables printable and within 1024 bytes, if and only if a default name that it gives is |
| `GuardedRuns.PrintableNames` | src/Application/ConfigState/ConfigState.cpp:589-838 | so all names are, in every state of a run whose quorum numbers fit 64 bits |
| `Guards.MemberGuards` | src/Application/ConfigState/ConfigState.cpp:648-742 | exactly which changes of the members and priorities of a quorum are accepted, said of its lists |
| `Guards.NoMember` | src/Application/ConfigState/ConfigState.cpp:573-587 | a node is taken off the register exactly if it is registered and no quorum has it as a member |
| `NameGuards.QuorumGuards` | src/Application/ConfigState/ConfigState.cpp:589-646 | a quorum is created or renamed exactly under a printable name that no quorum has, created with registered nodes, and deleted exactly without shards |
| `NameGuards.DatabaseGuards` | src/Application/ConfigState/ConfigState.cpp:744-780 | a database is created or renamed exactly under a printable name that no other has |
| `NameGuards.TableGuards` | src/Application/ConfigState/ConfigState.cpp:793-838 | the same for tables within their database, whose quorum and database must be there |
| `NameGuards.CatalogGuards` | src/Application/ConfigState/ConfigState.cpp:782-893 | deleting and freezing are accepted exactly for what is there |
| `NameGuards.EndGuards` | src/Application/ConfigState/ConfigState.cpp:920-968 | the end of a truncation is always accepted, that of a split exactly for a shard that is being created by one |
| `NameGuards.MigrationEndGuard` | src/Application/ConfigState/ConfigState.cpp:983-995 | the end of a migration is accepted exactly if this target and this source are noted |
| `ConfigStates.ConfigState.CompleteCreateQuorum` | src/Application/ConfigState/ConfigState.cpp:589-611 | accepts exactly the printable, short, unused names with registered nodes |
| `ConfigStates.ConfigState.CompleteUnregisterShardServer` | src/Application/ConfigState/ConfigState.cpp:573-587 | accepts exactly the registered nodes that are members of no quorum |
| `ConfigStates.ConfigState.CompleteTruncateTableBegin` | src/Application/ConfigState/ConfigState.cpp:895-918 | the loop over the shards gives the verdict of the specification, failed assertions included |
| `ConfigStates.ConfigState.CompleteSplitShardBegin` | src/Application/ConfigState/ConfigState.cpp:925-956 | accepts exactly the keys strictly inside the range of a settled shard while nothing else is splitting |
| `ConfigStates.ConfigState.OnMessage` | src/Application/ConfigState/ConfigState.cpp:368-438 | the dispatch, in place, computes the specified state or stops exactly where the specification does, and hands out the specified number |
| `EntryEffects.NodePlaced` | src/Application/ConfigState/ConfigState.cpp:1078-1161 | where members are sound, adding, removing, activating and deactivating leave the node in exactly the list that the entry names, or in none, every other node in its list and every other quorum as it was |
| `EntryEffects.AddEntry` | src/Application/ConfigState/ConfigState.cpp:1078-1091 | the node becomes one more inactive node, and nothing else changes |
| `EntryEffects.RemoveEntry` | src/Application/ConfigState/ConfigState.cpp:1093-1114 | one copy of the node goes, from the active nodes if it is there, and nothing else changes |
| `EntryEffects.ActivateEntry` | src/Application/ConfigState/ConfigState.cpp:1116-1144 | one copy of the node moves to the active nodes, and the marks of an activation under way go |
| `EntryEffects.DeactivateEntry` | src/Application/ConfigState/ConfigState.cpp:1146-1161 | one copy of the node moves to the inactive nodes, and nothing else changes |
| `EntryEffects.CreateQuorumEntry` | src/Application/ConfigState/ConfigState.cpp:1031-1049 | a new quorum has the nodes of the message as active nodes, each as often as named, and no other field set |
| `EntryEffects.RenameQuorumEntry` | src/Application/ConfigState/ConfigState.cpp:1051-1064 | after a rename the quorum is found under its new name, and only the name changed |
| `EntryEffects.DeleteQuorumEntry` | src/Application/ConfigState/ConfigState.cpp:1066-1076 | exactly that quorum goes |
| `EntryEffects.RegisterEntry` | src/Application/ConfigState/ConfigState.cpp:997-1017 | a registered node has the new endpoint, any other becomes a new server under the next number |
| `EntryEffects.UnregisterEntry` | src/Application/ConfigState/ConfigState.cpp:1019-1029 | exactly that server goes |
| `EntryEffects.SetPriorityEntry` | src/Application/ConfigState/ConfigState.cpp:1163-1185 | the priority of the server for the quorum is the one set, its other priorities and all else stay |
| `EntryEffects.CreateDatabaseEntry` | src/Application/ConfigState/ConfigState.cpp:1187-1202 | a new and empty database under the next number |
| `EntryEffects.RenameDatabaseEntry` | src/Application/ConfigState/ConfigState.cpp:1204-1218 | after a rename the database is found under its new name, and only the name changed |
| `EntryEffects.RenameTableEntry` | src/Application/ConfigState/ConfigState.cpp:1282-1297 | the same for a table, within its database |
| `EntryEffects.FreezeTableEntry` | src/Application/ConfigState/ConfigState.cpp:1316-1336 | freezing sets the flag of that table to true and unfreezing to false, and nothing else |
| `EntryEffects.FreezeDatabaseEntry` | src/Application/ConfigState/ConfigState.cpp:1338-1372 | the same for exactly the tables of a database |
| `EntryEffects.CreateTableEntry` | src/Application/ConfigState/ConfigState.cpp:1239-1280 | a new table with one settled shard of all keys in the quorum asked for |
| `EntryEffects.DeleteEntries` | src/Application/ConfigState/ConfigState.cpp:1220-1314 | deleting a table or a database takes away exactly its tables and their shards |
| `EntryEffects.DeleteEntryRest` | src/Application/ConfigState/ConfigState.cpp:1220-1314 | and changes nothing else of quorums, databases, servers and counters but the lists; a noted migration is given up exactly if its source goes |
| `EntryEffects.TruncateBeginEntry` | src/Application/ConfigState/ConfigState.cpp:1374-1414 | the table has one new shard for all its old ones, being created, in the quorum of the last of them |
| `EntryEffects.TruncateEntryRest` | src/Application/ConfigState/ConfigState.cpp:1374-1414 | and nothing else changes but lists and counters; a noted migration is given up exactly if its source goes |
| `EntryEffects.TruncateEndEntry` | src/Application/ConfigState/ConfigState.cpp:1416-1431 | the end of a truncation leaves the first shard of the table settled and changes nothing else |
| `EntryEffects.SplitBeginEntry` | src/Application/ConfigState/ConfigState.cpp:1433-1468 | the shard ends at the key, and a new one, being created, goes on from there in the same quorum |
| `EntryEffects.SplitEndEntry` | src/Application/ConfigState/ConfigState.cpp:1470-1477 | the end of a split leaves the shard settled and changes nothing else |
| `EntryEffects.MigrationEndEntry` | src/Application/ConfigState/ConfigState.cpp:1483-1508 | the shard has its new number and its new quorum, and all its other fields |
| `EntryEffects.AddEntryRest` | src/Application/ConfigState/ConfigState.cpp:1239-1508 | creating a table, splitting and moving a shard change nothing else but lists and counters |
| `ConfigStates.ConfigState.OnRegisterShardServer` | src/Application/ConfigState/ConfigState.cpp:997-1017 | a known node gets a new endpoint, any other a new number |
| `ConfigStates.ConfigState.OnCreateQuorum` | src/Application/ConfigState/ConfigState.cpp:1031-1049 | adds the nodes one by one in order and names the quorum by its number if it was given no name |
| `ConfigStates.ConfigState.OnActivateShardServer` | src/Application/ConfigState/ConfigState.cpp:1116-1144 | moves the node and ends the activation, stopping exactly where an assertion fails |
| `ConfigStates.ConfigState.OnSetPriority` | src/Application/ConfigState/ConfigState.cpp:1163-1185 | the search loop that stops at the first priority for the quorum computes the specified list |
| `ConfigStates.ConfigState.DeleteShard` | src/Application/ConfigState/ConfigState.cpp:1715-1731 | unlinks a shard from quorum and table and aborts its migration |
| `ConfigStates.ConfigState.DeleteShardsOf` | src/Application/ConfigState/ConfigState.cpp:1391-1399 | the loop that deletes the first shard until there is none, with the quorum of the last |
| `ConfigStates.ConfigState.OnDeleteDatabase` | src/Application/ConfigState/ConfigState.cpp:1220-1237 | the loop over the tables of a database, each deleted with its shards |
| `ConfigStates.ConfigState.OnCreateTable` | src/Application/ConfigState/ConfigState.cpp:1239-1280 | adds table, shard and both links, or stops |
| `ConfigStates.ConfigState.OnTruncateTableBegin` | src/Application/ConfigState/ConfigState.cpp:1374-1414 | replaces all shards of the table by one |
| `ConfigStates.ConfigState.OnSplitShardBegin` | src/Application/ConfigState/ConfigState.cpp:1433-1468 | cuts a shard in place; if the shard is gone it only clears the splitting mark |
| `ConfigStates.ConfigState.OnShardMigrationComplete` | src/Application/ConfigState/ConfigState.cpp:1483-1508 | moves a shard in place, under its new number |
| `ConfigStates.ConfigState.SetDatabaseFrozen` | src/Application/ConfigState/ConfigState.cpp:1338-1372 | the loop over the tables of a database |
| `Lookups.Find` | src/Application/ConfigState/ConfigState.cpp:440-451 | the search loop finds the first object with a number, or none if there is none |
| `Routing.SameShard` | src/Application/Client/SDBPClient.cpp:1444-1480 | for every table and key of a well-formed state the client, the controller and `RangeContains` find the same shard, and only that one |
| `Routing.GetShard` | src/Application/ConfigState/ConfigState.cpp:518-535 | the loop over all shards finds the first one that holds the key |
| `Routing.GetQuorumID` | src/Application/Client/SDBPClient.cpp:1444-1480 | the loop over the shards of a table finds the quorum of the first one that holds the key |
| `Routing.NextExists` | src/Application/Client/SDBPClient.cpp:1728-1740 | behind every shard with a last key there is exactly one that begins with that key, and the search finds it |
| `Routing.WalkVisitsAll` | src/Application/Client/SDBPClient.cpp:1710-1747 | following the last keys visits every shard from the start on exactly once, in order, and ends at the one without a last key |
| `Routing.FindNext` | src/Application/Client/SDBPClient.cpp:1728-1740 | the search loop of a listing that goes on to the next shard |
| `Bytes.RangeContainsIsInRange` | src/System/Common.cpp:354-389 | the branching test of a key against a range agrees with the comparison macros on all inputs |
| `Decimal.UInt64ToBuffer` | src/System/Formatting.cpp:10-55 | the digit loop prints the decimal representation, terminated, as far as the buffer reaches, and returns the full length in any case; the terminating zero misses the buffer exactly for a buffer without a byte and a number other than zero |
| `Decimal.Int64ToBuffer` | src/System/Formatting.cpp:57-75 | the same for all signed 64-bit numbers, with a sign in front; the zero misses the buffer exactly if there is no room behind the sign |
| `Decimal.BufferToUInt64` | src/System/Common.cpp:233-261 | reads the longest run of digits, modulo 2^64 |
| `Decimal.BufferToInt64` | src/System/Common.cpp:184-231 | reads a sign and digits, modulo 2^64 in two's complement; a lone sign is no number |
| `Decimal.ValueOfDigits` | src/System/Formatting.cpp:10-55 | reading the digits of a number gives the number |
| `Decimal.SignedRoundTrip` | src/System/Common.cpp:184-231 | reading undoes printing for signed numbers and stops right behind them |
| `Formatting.VWritef` | src/System/Formatting.cpp:361-622 | returns the size needed whatever the size of the buffer, and if that suffices the buffer holds exactly the text |
| `Formatting.VReadf` | src/System/Formatting.cpp:182-322 | the loop over the directives is the specified scanner, assertions included |
| `Formatting.RoundTrip` | src/System/Formatting.cpp:182-322 | for every format whose numbers are followed by something other than a digit, reading recovers every argument and takes exactly what was printed |
| `MessageCodec.MessageRoundTrip` | src/Application/ConfigServer/ConfigMessage.cpp:227-377 | reading undoes writing for messages of every kind if and only if the message is not the creation of a quorum without nodes, which is written but cannot be read |
| `WireFormat.MessageIsLine` | src/Application/ConfigServer/ConfigMessage.cpp:379-512 | the text of a message of any kind is its letter and its arguments in the order of the format, with colons between them |
| `MessageCodec.Read` | src/Application/ConfigServer/ConfigMessage.cpp:227-377 | the reader with its node loop is the specified one |
| `MessageCodec.Write` | src/Application/ConfigServer/ConfigMessage.cpp:379-512 | the writer with its node loop yields the specified text |
| `StateCodec.StateRoundTrip` | src/Application/ConfigState/ConfigState.cpp:226-342 | with and without volatile fields, reading a written state gives the projection that was written and uses up the text, unless a database with a one-digit number has an empty name; then and only then it fails |
| `WireFormat.StateIsLine` | src/Application/ConfigState/ConfigState.cpp:300-342 | the text of a state is its counters, quorums, databases, tables, shards and servers, each as its fields in the order of the format, with colons between them; in the volatile form the master and the migration come first |
| `WireFormat.WrittenMeans` | src/Application/ConfigState/ConfigState.cpp:226-342 | what is read back: all replicated fields in both forms, and in the volatile form primaries, configurations, positions, activating nodes, sizes, reports, master and migration |
| `StateCodec.RepairIsNoOp` | src/Application/ConfigState/ConfigState.cpp:1783-1786 | raising the counters above the numbers read changes nothing on a state whose counters are above them |
| `StateCodec.ServerRoundTrip` | src/Application/ConfigState/ConfigState.cpp:1902-1925 | shard servers with their optional list of priorities are read back, with and without volatile fields |
| `StateCodec.InfosRoundTrip` | src/Application/ConfigState/ConfigShardServer.cpp:13-51 | lists of quorum infos are read back whatever follows them |
| `StateCodec.IDListRoundTrip` | src/Application/ConfigState/ConfigState.cpp:1999-2031 | plain lists of numbers are read back in order, sorted lists if they are sorted |
| `StateReading.StateReader.Read` | src/Application/ConfigState/ConfigState.cpp:226-298 | the reader that works in place on the state and a moving position computes the specified state, fails where it fails, and uses up the text |
| `StateReading.StateReader.ReadQuorums` | src/Application/ConfigState/ConfigState.cpp:1510-1532 | the loop that reads quorums and raises the counter as it goes computes the specified list and counter |
| `StateReading.StateReader.ReadShards` | src/Application/ConfigState/ConfigState.cpp:1639-1661 | the same for shards |
| `StateReading.StateReader.ReadShardServers` | src/Application/ConfigState/ConfigState.cpp:1677-1699 | the same for shard servers |
| `StateReading.ReadQuorum` | src/Application/ConfigState/ConfigState.cpp:1733-1788 | the reader of one quorum, with three lists and two optional parts |
| `StateReading.ReadInfoList` | src/Application/ConfigState/ConfigShardServer.cpp:13-35 | the loop that reads quorum infos |
| `StateReading.ReadQuorumPriorities` | src/Application/ConfigState/ConfigState.cpp:1927-1951 | the loop that reads priorities, if the list is there at all |
| `StateReading.ReadIDList` | src/Application/ConfigState/ConfigState.cpp:1999-2018 | the loop that reads numbers into a plain or a sorted list |
| `StateWriting.Write` | src/Application/ConfigState/ConfigState.cpp:300-342 | appending part after part yields the specified text, whatever room the buffer had |
| `StateWriting.WriteQuorum` | src/Application/ConfigState/ConfigState.cpp:1790-1817 | the writer of one quorum yields its text |
| `StateWriting.WriteShardServer` | src/Application/ConfigState/ConfigState.cpp:1953-1978 | the writer of one shard server with its infos and priorities yields its text |
| `StateWriting.WriteInfoList` | src/Application/ConfigState/ConfigShardServer.cpp:37-51 | the loop over the infos yields their text |
| `QuorumProcessors.ConfigQuorumProcessor.TryAppend` | src/Application/ConfigServer/ConfigQuorumProcessor.cpp:78-106 | messages that the check turns down are dropped and their clients, and no others, are told that they failed; the first that it accepts is appended, one at a time; the controller stops exactly if the first that is not turned down cannot be checked |
| `QuorumProcessors.ConfigQuorumProcessor.OnClientRequest` | src/Application/ConfigServer/ConfigQuorumProcessor.cpp:276-281 | the request joins the queue and is offered with it; clients and their messages stay paired in order, and those turned down are told so; the controller stops exactly as in `TryAppend` |
| `QuorumProcessors.ConfigQuorumProcessor.Enqueue` | src/Application/ConfigServer/ConfigQuorumProcessor.cpp:329-346 | the same for a message of the controller's own, without a client |
| `QuorumProcessors.ConfigQuorumProcessor.EnqueueOnce` | src/Application/ConfigServer/ConfigQuorumProcessor.cpp:329-443 | the tests of the queue: a message is queued exactly if none of those that wait makes it needless |
| `QuorumProcessors.ConfigQuorumProcessor.OnShardMigrationReported` | src/Application/ConfigServer/ConfigQuorumProcessor.cpp:445-458 | a leader with a migration in mind proposes its end under the numbers it has noted; any other controller does nothing |
| `QuorumProcessors.StuckMeans` | src/Application/ConfigServer/ConfigQuorumProcessor.cpp:78-106 | in a well-formed state the controller stops exactly at the completion of a split whose shard is gone |
| `QuorumProcessors.ConfigQuorumProcessor.OnAppend` | src/Application/ConfigServer/ConfigQuorumProcessor.cpp:592-688 | an entry is applied as specified and the rest of the queue offered to the new state, one that the database already reflects changes nothing; the client of an own entry learns the number of the object it created, or that all is well if it created none, and all later replies are failures; the controller stops exactly if the value cannot be read, the entry fails an assertion, or the check of the next message does |
| `Marks.AppendMarks` | src/Application/ConfigServer/ConfigQuorumProcessor.cpp:592-671 | what one entry does to the marks of a controller: the mark of a split goes exactly at the end of a split or at the split of a missing shard; a migration is noted exactly by a leader without one, between two quorums with a primary each, under the quorum and the shard of the entry and with the number set aside, and forgotten exactly by the leader at its end or with its source |
| `Marks.MarkedIfPending` | src/Application/ConfigServer/ConfigQuorumProcessor.cpp:592-671 | at every moment of a run of a controller the mark says whether a split that was accepted has not ended since |
| `Marks.NextSplitAccepted` | src/Application/ConfigState/ConfigState.cpp:925-956 | so from the end of a split until the next one is accepted, a split is accepted exactly if its key is strictly inside a shard of a settled quorum |
| `Marks.NotedWasBegun` | src/Application/ConfigServer/ConfigQuorumProcessor.cpp:792-842 | at every moment of a run the migration noted was begun by an entry that the controller applied, which names this target and this source and set aside this destination |
| `QuorumProcessors.ConfigQuorumProcessor.OnLeaseTimeout` | src/Application/ConfigServer/ConfigQuorumProcessor.cpp:533-559 | a controller that is no longer master has answered every request it ever received, the remaining ones with no service |
| `QuorumProcessors.ConfigQuorumProcessor.OnShardMigrationBegin` | src/Application/ConfigServer/ConfigQuorumProcessor.cpp:792-842 | sets a shard number aside in every role and starts a migration only as leader and only between two quorums with primaries |
| `QuorumProcessors.ConfigQuorumProcessor.FinishMigration` | src/Application/ConfigServer/ConfigQuorumProcessor.cpp:614-629 | the leader forgets the migration that completes, and stops if it is another one |
| `QuorumProcessors.FirstClient` | src/Application/ConfigServer/ConfigQuorumProcessor.cpp:675-685 | if requests are the requests of the client messages in order, the first request belongs to the first client message |
| `QuorumProcessors.NumberNamesNewObject` | src/Application/ConfigServer/ConfigQuorumProcessor.cpp:947-1014 | the number in a response is that of an object that is new and has the name, database or split key asked for |
| `QuorumProcessors.AcceptedButUnreadable` | src/Application/ConfigServer/ConfigQuorumContext.cpp:183-195 | some message passes the check and yet cannot be read from the log |
| `ControllerRuns.AlwaysSafe` | src/Application/ConfigServer/ConfigQuorumProcessor.cpp:592-634 | in every moment of every run of a controller, with proposals, entries in either role, requests, reports, timeouts, activations, changes of the master and catching up in any order, the controller is in step with the log, its leases exclude each other and its activations are in their phases with their causes |
| `ControllerRuns.NeverTwoHolders` | src/Application/ConfigServer/ConfigPrimaryLeaseManager.cpp:72-137 | over such runs two periods in which different nodes hold the lease of one quorum never overlap |
| `ControllerRuns.ShownPrimaryHoldsLease` | src/Application/ConfigServer/ConfigPrimaryLeaseManager.cpp:144-212 | at every moment the primary shown of a quorum has a listed lease and no other node has one |
| `ControllerRuns.AlwaysInPhase` | src/Application/ConfigState/ConfigQuorum.cpp:49-81 | at every moment every quorum is in one of the four phases of an activation; the one under way is the last that started there, of this node and in this configuration, and one that is watched was announced since by an extension of its lease |
| `ControllerRuns.ActivationsHaveCauses` | src/Application/ConfigServer/ConfigActivationManager.cpp:116-173 | every activation that was asked for without force names the node whose activation started in its configuration; two extensions of the lease in that configuration followed, the later of which reports progress, and nothing else started in the quorum until then |
| `ManagerEffects.ProgressIsQueued` | src/Application/ConfigServer/ConfigActivationManager.cpp:139-168 | conversely, in a run every extension by the primary in a watched configuration that reports progress queues the activation of the node that is watched |
| `ManagerEffects.ExtensionEffect` | src/Application/ConfigServer/ConfigActivationManager.cpp:116-173 | what an extension does to its quorum: it begins the watch, or ends it and queues the activation, or does nothing, each exactly under its condition on the fields |
| `ManagerEffects.AttemptsStart` | src/Application/ConfigServer/ConfigActivationManager.cpp:225-278 | an attempt that is not forced starts an activation in exactly the first quorum in which it can, if the server may be tried at all, and in all of them where earlier attempts are disregarded |
| `ManagerEffects.WaitDoubles` | src/Application/ConfigServer/ConfigActivationManager.cpp:271-273 | the wait after an attempt to activate a server doubles with each attempt |
| `ManagerEffects.LossEffect` | src/Application/ConfigServer/ConfigActivationManager.cpp:44-90 | after the loss of a node exactly the activations of it, and those of quorums where it is active, are over |
| `ManagerEffects.LossQueues` | src/Application/ConfigServer/ConfigActivationManager.cpp:44-90 | it is deactivated exactly in the quorums of which it is an active member |
| `ManagerEffects.LateEffect` | src/Application/ConfigServer/ConfigActivationManager.cpp:175-198 | after the timer no activation is late, and exactly those that were are over |
| `ControllerRuns.ConfigurationsGrow` | src/Application/ConfigState/ConfigQuorum.cpp:49-58 | the configuration number of a quorum never goes back over a run without catching up |
| `ControllerRuns.StepIsSafe` | src/Application/ConfigServer/ConfigPrimaryLeaseManager.cpp:21-137 | each of the twelve kinds of events keeps all of this |
| `ControllerCode.Managers.OnRequestPrimaryLease` | src/Application/ConfigServer/ConfigPrimaryLeaseManager.cpp:72-212 | in a run the two managers together take exactly the step of the request, activation included, and every member of the quorum is sent the lease that was granted |
| `ControllerCode.Managers.OnPrimaryLeaseTimeout` | src/Application/ConfigServer/ConfigPrimaryLeaseManager.cpp:21-70 | the handler takes exactly the step of its event in every run, or stops exactly where the run ends |
| `ControllerCode.Managers.OnActivationTimeout` | src/Application/ConfigServer/ConfigActivationManager.cpp:175-198 | the same for late activations |
| `ControllerCode.Managers.TryActivateShardServer` | src/Application/ConfigServer/ConfigActivationManager.cpp:92-114 | the same for trying to activate a server |
| `ControllerCode.Managers.TryDeactivateShardServer` | src/Application/ConfigServer/ConfigActivationManager.cpp:44-90 | the same for a server that is gone |
| `ControllerCode.EveryMemberTold` | src/Application/ConfigServer/ConfigPrimaryLeaseManager.cpp:179-212 | exactly the active, the inactive and the activating node are sent the lease, with the time for which it is listed, the proposal and the configuration, the quorum's shards and its active nodes, the activating one among them |
| `PrimaryLeases.AssignSound` | src/Application/ConfigServer/ConfigPrimaryLeaseManager.cpp:144-177 | assigning a lease when no other node has one listed keeps all periods apart |
| `PrimaryLeases.ExtendSound` | src/Application/ConfigServer/ConfigPrimaryLeaseManager.cpp:179-212 | moving the expiry of a lease, in either direction, keeps all periods apart |
| `PrimaryLeases.ExpireAllIsFilter` | src/Application/ConfigServer/ConfigPrimaryLeaseManager.cpp:34-67 | stopping at the first lease that is not over equals filtering the whole list, and keeps every invariant |
| `PrimaryLeases.OneHolder` | src/Application/ConfigServer/ConfigPrimaryLeaseManager.cpp:115-123 | all listed leases of a quorum belong to one node |
| `PrimaryLeases.ShorterExtension` | src/Application/ConfigServer/ConfigPrimaryLeaseManager.cpp:179-212 | a concrete case in which the quorum is free before the end of the first grant |
| `PrimaryLeases.GrantKeptUntilItsEnd` | src/Application/ConfigServer/ConfigPrimaryLeaseManager.cpp:179-212 | when a grant as it was would have ended, an extension of it still keeps every other node from the quorum if and only if the new expiry is not before the old one or the quorum has a second lease listed |
| `PrimaryLeases.ConfigPrimaryLeaseManager.OnRequestPrimaryLease` | src/Application/ConfigServer/ConfigPrimaryLeaseManager.cpp:72-137 | assigns, extends or ignores exactly as `Granted` says, on every path: no master, no quorum, no active member, priority zero, a live member with a higher one or another holder are ignored, and the controller stops exactly if a node whose priority is looked up is not registered; leases, periods and primaries are as specified, and what is granted is listed until the time granted |
| `PrimaryLeases.GrantedMeans` | src/Application/ConfigServer/ConfigPrimaryLeaseManager.cpp:72-137 | a lease is granted if and only if the master is asked by a registered active member with a priority above zero that no live member exceeds, while no other node has a lease listed or is shown as primary; if all live members are registered no lookup fails |
| `PrimaryLeases.ConfigPrimaryLeaseManager.OnPrimaryLeaseTimeout` | src/Application/ConfigServer/ConfigPrimaryLeaseManager.cpp:21-70 | drops exactly the leases that are over, clears their primaries, aborts a migration between their quorums, changes nothing else in the state, and sets the timer to the first expiry that is left, if any; it stops exactly if a migration is noted and its shard, or the quorum of some expired lease before the first one that touches the migration, is gone |
| `PrimaryLeases.ExpireStops` | src/Application/ConfigServer/ConfigPrimaryLeaseManager.cpp:34-67 | the loop over the expired leases stops the controller if and only if that holds of its input |
| `ManagerEffects.ExpiryEffect` | src/Application/ConfigServer/ConfigPrimaryLeaseManager.cpp:34-67 | exactly the quorums of which a lease is over lose their primary, nothing else of any quorum changes, and a migration is given up exactly if its target or its source is one of them |
| `ManagerEffects.LeaseEffect` | src/Application/ConfigServer/ConfigPrimaryLeaseManager.cpp:144-212 | an assignment adds one lease and shows the node, and changes nothing else of the quorums; an extension moves the expiry of one lease of the quorum |
| `ManagerEffects.LengthBounded` | src/Application/ConfigServer/ConfigPrimaryLeaseManager.cpp:144-212 | a lease lasts as long as asked for, three seconds at most |
| `PrimaryLeases.ConfigPrimaryLeaseManager.AssignPrimaryLease` | src/Application/ConfigServer/ConfigPrimaryLeaseManager.cpp:144-177 | the lease is listed in order and the quorum shows the node |
| `PrimaryLeases.ConfigPrimaryLeaseManager.ExtendPrimaryLease` | src/Application/ConfigServer/ConfigPrimaryLeaseManager.cpp:179-212 | the lease of the quorum is found, moved to its new place and keeps its identity |
| `PrimaryLeases.ConfigPrimaryLeaseManager.UpdateTimer` | src/Application/ConfigServer/ConfigPrimaryLeaseManager.cpp:214-232 | while leases are listed the timer is active, at the first expiry, or earlier if it was active and earlier; without leases it is left alone |
| `PrimaryLeases.GetQuorumPriority` | src/Application/ConfigState/ConfigShardServer.cpp:163-174 | the search loop finds the priority set, or 1 |
| `LeasesAndLog.EntryKeepsPrimaries` | src/Application/ConfigState/ConfigState.cpp:368-438 | no log entry makes a quorum show a primary without a lease |
| `ActivationAndLog.EntryKeepsPhases` | src/Application/ConfigState/ConfigState.cpp:368-438 | every log entry keeps every quorum in one of the four phases of an activation |
| `ActivationAndLog.EntryKeepsAccounts` | src/Application/ConfigState/ConfigState.cpp:368-438 | no log entry makes a quorum activate a node whose activation did not start there, or watch a configuration that was not announced |
| `ActivationAndLog.EntryKeepsManager` | src/Application/ConfigState/ConfigState.cpp:368-438 | every log entry keeps the invariant of the activation manager: phases, activations that started and watches that were announced, and the waits of servers that were tried |
| `Heartbeats.DropSilentIsFilter` | src/Application/ConfigServer/ConfigHeartbeatManager.cpp:102-157 | stopping at the first heartbeat that is not over equals filtering the list; exactly the silent nodes lose their flag and their primaries |
| `Heartbeats.SilenceKeepsPrimaries` | src/Application/ConfigServer/ConfigHeartbeatManager.cpp:102-157 | silence only takes primaries away |
| `Heartbeats.ConfigHeartbeatManager.OnHeartbeatTimeout` | src/Application/ConfigServer/ConfigHeartbeatManager.cpp:102-157 | the loop in place computes that, and every flag still says whether the node is listed |
| `Heartbeats.ConfigHeartbeatManager.RegisterHeartbeat` | src/Application/ConfigServer/ConfigHeartbeatManager.cpp:182-208 | the one entry of a node moves to its new place in order |
| `Heartbeats.ConfigHeartbeatManager.OnHeartbeatMessage` | src/Application/ConfigServer/ConfigHeartbeatManager.cpp:61-100 | a registered node is listed and flagged, what it reports is noted and the positions of the quorums rise to it; any other node is ignored |
| `ManagerEffects.BeatEffect` | src/Application/ConfigServer/ConfigHeartbeatManager.cpp:182-208 | a heartbeat replaces the entries of its node and keeps all others |
| `ManagerEffects.ServerEffects` | src/Application/ConfigServer/ConfigHeartbeatManager.cpp:61-157 | a report changes exactly the reported fields of its server, silence exactly its flag, and the end of an activation exactly its wait |
| `Heartbeats.RaiseMeans` | src/Application/ConfigServer/ConfigHeartbeatManager.cpp:61-100 | the position of a quorum never falls, is no less than any report and is one of the reports if it changes |
| `Heartbeats.ConfigHeartbeatManager.HasHeartbeat` | src/Application/ConfigServer/ConfigHeartbeatManager.cpp:159-170 | finds exactly the listed nodes |
| `Activation.PhaseTransitions` | src/Application/ConfigState/ConfigQuorum.cpp:49-81 | the flags of a quorum form one of four phases, each transition leads to the next phase, and the configuration number grows at each start |
| `Activation.AttemptMeans` | src/Application/ConfigServer/ConfigActivationManager.cpp:225-278 | trying to activate a server in all quorums in turn leaves each as it was, or starts an activation from the idle phase of a quorum with a primary in the next configuration, or, by force, only queues it; the server changes in its wait alone, and one that was tried knows when it may be tried again |
| `Activation.VolatileBecomesActive` | src/Application/ConfigState/ConfigQuorum.cpp:110-115 | the list with the activating node, in order, is what the log entry of its activation makes lasting, and the entry does not change that list |
| `Activation.ConfigActivationManager.OnExtendLease` | src/Application/ConfigServer/ConfigActivationManager.cpp:116-173 | the exact effect: an extension by the primary in the present configuration begins the watch, or, in a watched configuration and reporting progress, sends the activation to the log; the lookup fails exactly if an activation is sent for a node that is not registered; every activation sent is of the node whose activation started in that configuration, with two extensions of it as its causes |
| `Activation.ConfigActivationManager.TryActivateShardServer` | src/Application/ConfigServer/ConfigActivationManager.cpp:92-114 | the loop over the quorums computes the attempts in turn, in which each start doubles the wait that the next one sees; the lookup fails exactly if the node is not registered and some quorum concerns it |
| `Activation.ConfigActivationManager.TryActivateInQuorum` | src/Application/ConfigServer/ConfigActivationManager.cpp:225-278 | starts if and only if it is not forced, there is a primary, the server is not barred and not waiting after an earlier attempt unless that is disregarded, and its log is close enough; a forced one is queued; the assertion on the next time of activation holds |
| `Activation.ConfigActivationManager.TryDeactivateShardServer` | src/Application/ConfigServer/ConfigActivationManager.cpp:44-90 | gives up exactly the activations that involve the node and queues a deactivation for exactly the quorums where it is active, in order; the lookup fails exactly if such an activation is of a node that is not registered |
| `Activation.ConfigActivationManager.OnActivationTimeout` | src/Application/ConfigServer/ConfigActivationManager.cpp:175-198 | gives up exactly the activations that are late, and fails an assertion exactly if some quorum is replicating its activation |
| `RequestProxies.BufferMeansCalls` | src/Application/Client/SDBPRequestProxy.cpp:25-38 | for any sequence of writes and any store, writing the buffer out oldest first has the effect of all the writes in program order |
| `RequestProxies.ReadYourWrites` | src/Application/Client/SDBPClient.cpp:660-698 | reading through the buffer gives what the store would hold after all buffered writes |
| `RequestProxies.RequestProxy.RemoveAndAdd` | src/Application/Client/SDBPRequestProxy.cpp:25-38 | replaces an earlier write to the same key and adds at the end; map, list and byte count agree |
| `RequestProxies.RequestProxy.Remove` | src/Application/Client/SDBPRequestProxy.cpp:45-53 | takes one write out of map, list and count |
| `RequestProxies.RequestProxy.Pop` | src/Application/Client/SDBPRequestProxy.cpp:77-85 | yields the oldest write |
| `RequestProxies.RequestProxy.Find` | src/Application/Client/SDBPRequestProxy.cpp:40-43 | the map finds what is in the list |
| `RequestProxies.RequestProxy.Clear` | src/Application/Client/SDBPRequestProxy.cpp:55-62 | empties all three |
| `RequestProxies.BufferingClient.ProxiedRequest` | src/Application/Client/SDBPClient.cpp:1123-1164 | a write is refused for exactly three reasons (no controller, an empty key, a full buffer that may not be submitted), and otherwise the submitted and buffered writes together mean all accepted writes in order, with all of them submitted exactly if the mode and the size ask for it |
| `RequestProxies.BufferingClient.Submit` | src/Application/Client/SDBPClient.cpp:899-936 | everything buffered is submitted, oldest first, except inside a transaction or without a controller |
| `RequestProxies.BufferingClient.Get` | src/Application/Client/SDBPClient.cpp:660-698 | a read is refused exactly for an empty key or without a controller, and else sees every write before it, from the buffer or from the servers |
| `Listings.ListingIsOverlay` | src/Application/Client/SDBPClient.cpp:1893-2098 | a forward listing of one shard is exactly the wanted page of the table with the buffered writes applied, if and only if no buffered delete inside the page names a key that the table does not hold |
| `Listings.ListingMeans` | src/Application/Client/SDBPClient.cpp:1893-2098 | said of the table and the writes themselves: the listing has only entries in range that a write set or that are in the table and not written, in order and no more than asked for, and any such entry that it does not have comes after all of a full listing |
| `Listings.ListingOfPresentDeletes` | src/Application/Client/SDBPClient.cpp:1893-2098 | so it is right whenever every buffered delete in range names a key that the table holds |
| `Listings.FetchedSuffices` | src/Application/Client/SDBPClient.cpp:782-816 | asking the servers for the count, the number of buffered writes in range and one more for a skipped start is enough |
| `Listings.ComputeListResponse` | src/Application/Client/SDBPClient.cpp:1893-2098 | the loops with their cursors compute the specified merge, with the crash where the value cursor runs out |
| `Listings.NumProxiedDeletes` | src/Application/Client/SDBPClient.cpp:2100-2129 | counts the buffered writes in range, sets as well as deletes |
| `Listings.Merge` | src/Application/Client/SDBPClient.cpp:2015-2059 | the merge loop with its three cursors |
| `KeyListings.KeyListingIsOverlay` | src/Application/Client/SDBPClient.cpp:782-816 | a forward listing of keys alone is exactly the keys of the wanted page under the same condition; it never crashes |
| `KeyListings.MergedKeysIsOverlay` | src/Application/Client/SDBPClient.cpp:2015-2059 | the merge without values computes the keys of the page of the overlay if and only if it does not meet a delete before a larger key |
| `KeyListings.ComputeKeyResponse` | src/Application/Client/SDBPClient.cpp:1893-2098 | the loops for keys alone compute that merge |
| `ListResponses.MergedIsOverlay` | src/Application/Client/SDBPClient.cpp:2015-2059 | the merge of sorted lists is the page of the overlay if and only if it does not meet a delete before a larger key |
| `ListResponses.OverlayMeans` | src/Application/Client/SDBPClient.cpp:1893-2098 | an entry is in the overlay if and only if it was written last, or is in the table and was not written |
| `ListResponses.OverlaySorted` | src/Application/Client/SDBPClient.cpp:1893-2098 | the overlay is in order |
| `ListResponses.PageOverlay` | src/Application/Client/SDBPClient.cpp:2100-2129 | a page of the overlay needs only as many entries as its length and the number of pending writes |
| `RequestQueues.ShardConnection.OnClose` | src/Application/Client/SDBPShardConnection.cpp:250-268 | for every quorum the sent requests wait again in their order ahead of those that waited; each request is in as many places as before; it fails exactly if some quorum of the connection is unknown or, with this node as its primary, has an active node that is not connected |
| `RequestQueues.ShardConnection.ReassignSentRequests` | src/Application/Client/SDBPShardConnection.cpp:125-134 | taking the sent requests back from the last to the first keeps their order |
| `RequestQueues.ShardConnection.InvalidateQuorum` | src/Application/Client/SDBPShardConnection.cpp:270-287 | the same for one quorum and the loss of its primary, with the exact condition of its assertions |
| `RequestQueues.ShardConnection.OnMessage` | src/Application/Client/SDBPShardConnection.cpp:136-228 | the request that a response answers stays, ends, or goes one of the four ways of `ReassignRequest` and no other; a response to no request changes no queue |
| `RequestQueues.ShardConnection.SendQuorumRequest` | src/Application/Client/SDBPClient.cpp:1500-1573 | sends a run from the head of the queue in order, writes to the primary alone, and stops only for one of four reasons |
| `RequestQueues.SentRunMeans` | src/Application/Client/SDBPClient.cpp:1500-1573 | to a server that is not the primary only reads are sent, none in strict mode, and never more than the limit |
| `RequestQueues.Client.InvalidateQuorum` | src/Application/Client/SDBPClient.cpp:1654-1679 | the requests of a quorum without primary go back in front of the submitted ones, so that their order stays; its assertions fail exactly if the quorum is unknown or one of its active nodes is not connected |
| `RequestQueues.Client.AssignRequestsToQuorums` | src/Application/Client/SDBPClient.cpp:1376-1442 | with the schema known a submitted request goes back if and only if it is a write for a known quorum without a primary, joins the queue of its quorum if and only if that is found and it is no such write, is refused if and only if no shard holds its key, and goes to the controller if and only if it is for the controller; without the schema nothing moves; all stay in order |
| `RequestQueues.Client.ReassignRequest` | src/Application/Client/SDBPClient.cpp:1376-1423 | one request goes exactly one of these four ways |
| `RequestQueues.WaysMean` | src/Application/Client/SDBPClient.cpp:1376-1423 | the conditions of the four ways, one by one |
| `RequestQueues.NoneLost` | src/Application/Client/SDBPClient.cpp:1425-1442 | assigning neither loses nor doubles a request |
| `RequestQueues.SameCopies` | src/Application/Client/SDBPShardConnection.cpp:250-287 | keeping the order for every quorum keeps the number of copies of every request |
| `RequestQueues.SentAgain` | src/Application/Client/SDBPShardConnection.cpp:183-215 | a request that leaves its connection for one queue is in as many places as before |
| `Checksum.TableIsShift8` | src/System/Common.cpp:1015-1069 | each of the 256 entries of the table is what eight steps of the division make of its index |
| `Checksum.DivideWholeMessage` | src/System/Common.cpp:1071-1086 | adding bits at the top divides like shifting them in and 32 zeros after them |
| `Checksum.RunIsCksum` | src/System/Common.cpp:1071-1086 | the byte-wise run over the message and its length is the polynomial division of the cksum utility of POSIX.1-2017 |
| `Checksum.KnownValues` | src/System/Common.cpp:1071-1086 | the checksums of the nine digits and of the empty message are those of the cksum utility |
| `Checksum.ChecksumBuffer` | src/System/Common.cpp:1071-1086 | the two loops compute that checksum for every buffer |
| `Checksum.NextPowerOfTwo` | src/System/Common.cpp:1118-1128 | the least power of two not below the argument, and 0 exactly for 0 and for arguments above 2^31 |
| `Witnesses.ActivatedNodeUnknown` | src/Application/ConfigState/ConfigState.cpp:1116-1144 | a well-formed state in which the activation of a node that is not registered is accepted and then stops the controller |
| `Witnesses.NoTruncationUnderWay` | src/Application/ConfigState/ConfigState.cpp:1416-1431 | the completion of the truncation of a missing table is accepted and then stops the controller |
| `Witnesses.MigrationTargetGone` | src/Application/ConfigState/ConfigState.cpp:1483-1508 | a well-formed state in which a migration ends whose target was deleted: accepted, then stopped |
| `Witnesses.SplitShardGone` | src/Application/ConfigState/ConfigState.cpp:958-968 | the check of the completion of a split of a missing shard stops the controller |
| `Witnesses.SameNodeTwice` | src/Application/ConfigState/ConfigState.cpp:1031-1049 | an accepted creation of a quorum with one node twice, after which the members are unsound |
| `Witnesses.LastActiveRemoved` | src/Application/ConfigState/ConfigState.cpp:662-690 | the accepted removal of the only active node of a quorum in which it is listed as inactive as well |
| `Witnesses.TwiceReached` | src/Application/ConfigState/ConfigState.cpp:1031-1161 | such a quorum is reached by an accepted creation with one node twice and an accepted deactivation |
| `Witnesses.UnregisteredAdded` | src/Application/ConfigState/ConfigState.cpp:648-660 | an accepted addition after which a member is not registered |
| `Witnesses.SameDefaultName` | src/Application/ConfigState/ConfigState.cpp:1031-1049 | an accepted creation after which two quorums have one name |
| `Witnesses.NamelessDatabase` | src/Application/ConfigState/ConfigState.cpp:226-366 | an accepted database whose state cannot be read back |
| `Witnesses.FinishedMigrationKept` | src/Application/ConfigServer/ConfigQuorumProcessor.cpp:614-629 | a follower that still notes a migration whose source shard is gone |
| `Witnesses.DeleteOfAbsentKey` | src/Application/Client/SDBPClient.cpp:1893-2098 | a listing that crashes though the table itself is what is wanted |

## Left out

- Sockets, threads, the storage engine, PaxosLease and the replicated log: not part of this model. The log is a sequence of entries in one order; an entry reaches a controller after all entries before it, and an own entry is delivered at most once.
- HTTP, JSON, the shell scripts, logging and the other plumbing: not part of this model.
- Aliasing of the objects in the lists of `ConfigState`: a list is a sequence of values, each under its number, and an object is changed by replacing it in its place. Lists of requests are sequences of values, prepending a list is concatenation (the code leaves the stored length of the list behind), and the sorted map of the write buffer is a sequence in the order of its keys.
- Controllers (the list of controller nodes) and the shard sizes that shard servers report (`quorumShardInfos`) are not in the state.
- Counters and numbers are unbounded; only their texts are bounded to 64 and 32 bits, as preconditions of the round trips.
- Formatting.VWritef: formats are given in parsed form; padding, floating point, signed numbers and unprefixed texts are not part of the formats, and nothing is said of the contents of a buffer that is too small beyond the returned size.
- Decimal.BufferToInt64: signed overflow, which the language leaves undefined, is taken to wrap.
- MessageCodec.Write: growth of the buffer is left to `StateWriting.Appendf`, which models it once.
- SchemaSteps.AcceptedStep: the destination number of a completed migration is taken from the log entry that began it (`Reserved`), as `Proposals` derives; the second half of the result needs that.
- Runs.ReachableWellFormed: runs take the reserved pair of a completed migration as given; `Proposals.ProposedIsRun` derives it from what controllers propose.
- StateReading.StateReader.Read: `ok == false` stands for a failed read and for a failed assertion alike.
- Controllers.ReplicasAgree: a controller that stops is not followed any further.
- Catchup.CatchupEqualsReplay: the sender's numbers and lengths are taken to fit 64 and 32 bits.
- The check of the cluster number and the replication of it (`SetClusterID`) change nothing in the state.
- QuorumProcessors.ConfigQuorumProcessor.OnClientRequest: a request carries its message; the copying of fields from requests to messages and the read-only requests before that point are left out.
- QuorumProcessors.ConfigQuorumProcessor.OnAppend: after a split whose parent is gone the response carries an arbitrary number, as the code leaves it.
- Listeners of the state, and the notice to them when it changes, are left out.
- PrimaryLeases.ConfigPrimaryLeaseManager.OnRequestPrimaryLease: the response and the call to the activation manager are added in `ControllerCode.Managers.OnRequestPrimaryLease`.
- Heartbeats.ConfigHeartbeatManager.OnHeartbeatTimeout: the splits that heartbeats start are left out; the activations and deactivations that follow a heartbeat or a silence are calls of their own, and events of `ControllerRuns`.
- ControllerRuns.AlwaysSafe: an event that stops the controller ends its run; starting again from the database is left out.
- ControllerCode.Managers.OnRequestPrimaryLease: the handlers of heartbeats, the queue of messages and the processing of entries are related to the steps of runs by their own contracts alone.
- Proposals.ProposedIsRun: an entry is taken to be proposed in the state that all entries before it lead to; the replicated log that orders them is not part of this model.
- Activation.ConfigActivationManager.TryActivateInQuorum: the backoff is an integer power of two in place of a floating-point one, and the two timers are left out.
- Listings.ComputeListResponse: forward listings of one shard; backward listings and listings over several shards are left out.
- Routing.FindNext: the new start key is written to the request by the caller.
- RequestQueues.ShardConnection.OnMessage: the key, end and count that the end of a shard writes to the request are left out, as are the position in the log that an answer reports and the sending that follows.
- RequestQueues.ShardConnection.SendQuorumRequest: which limit the load balancing chooses is a parameter.
- RequestQueues.Client.ReassignRequest: the code also fails a transaction whose request had a quorum before, in a branch where the request has none; that test is never true and is left out.
- RequestProxies.BufferingClient.Submit: commit and rollback of transactions are left out, and the outcome of the transport.
- The printing of numbers in other bases, the human-readable sizes and the random numbers of `Common.cpp`: not part of this model.
- Endpoints are opaque texts.
