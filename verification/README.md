# A verified model of zg_choir's replication core

ZG keeps a small set of peers in agreement: one senior peer numbers every change to
a replicated database, logs it and multicasts it; the junior peers replay it, order
what they missed, or fetch the whole database again. Who is senior is agreed through
heartbeats. The choir demo plugs two databases into this: a song, and a table of who
plays which notes.

This project models that machinery in Dafny and proves what it is for. Run
`dafny verify dfyconfig.toml` to check everything.

How it is laid out: what the source does by changing objects in place is a `class`
here (files ending in `Object`, `DatabaseState.dfy`, `HeartbeatThread.dfy`), each
method proved to take the object to the value a function gives; the theorems are
about those functions, and about state machines built from them.

| part | files |
|---|---|
| shared vocabulary | Tables |
| one replicated database | Database, DatabaseState, Rescan |
| the replication protocol, over whole runs | Replication, Numbering, ReplicaSafety, Chronicle, SeniorLog, LogBudget, Stall, Convergence, Settling |
| the choir's databases | Chords, MusicSheet, SheetEffects, MusicSheetObject, Assignments, Allocator, AllocatorTheorems, AllocatorEffects, NoteAssignments, AssignmentEffects, NoteAssignmentsObject |
| the two joined | ChoirReplication |
| heartbeats and seniority | Heartbeats, HeartbeatThread, SeniorityOrder, Seniority, SeniorityExample |
| the main thread's roster | Roster, RosterObject |
| clock synchronisation | TimeAverager, TimeAveragerObject |
| discovery | Discovery, DiscoveryRuns, DiscoveryObject |
| the heartbeat's bytes | HeartbeatWire |

## What the protocol theorems assume

- Replication: one senior tenure, starting from a log that holds nothing above the
  senior's own state. Multicast updates and beacons are lost, duplicated and
  reordered at will. A reply travels on the unicast session its order went out on
  and dies with it. For `ReplicaSafety` the application keeps its bargain
  (`Correct`): the junior update redoes the senior's, a saved database loads back,
  a failed call changes nothing, the running checksum is the recalculated one.
  `Numbering`, `SeniorLog` and `Stall` assume nothing of the application.
  `ChoirReplication` proves the bargain for both choir databases, so there nothing
  is left to assume.
- Convergence: the junior's orders go out, and an order for the full database is
  answered with it; without that, `Stall` says exactly when a junior stays behind.
- Seniority: heartbeats are lost, duplicated and reordered at will and may arrive by
  any address. `AgreementIsReached` and `AgreementLasts` are about runs during which
  every member knows exactly the members.
- Checksums of strings, of 64-bit values and of peer IDs are arbitrary functions,
  the one of the empty string being 0.
- A hash table is a map with an iteration order; an iterator whose entry is removed
  goes on with the entry that is nearest in its direction at that moment.

## Where the code is not what its comments say

- The pass that should forget every peer that left steps its iterator backwards
  (demos/choir/NoteAssignmentsMap.cpp:219) and so only forgets a leading run of
  them: `OnlyOnlineIff` gives, for every mode that is not manual, the exact condition
  under which a review leaves notes with online peers only; `StrandedExample` and
  `AssistedExample` are inputs where it does not.
- The comparison by seniority puts the larger peer-type code first
  (src/private/PZGHeartbeatThreadState.cpp:344), so junior-only peers come before
  full ones. `HeadIsFullInEveryRun`: in every run the head of a list, sorted or
  adopted, is a full peer exactly when everyone in it is. `MixedIsReachable` reaches
  a list where it is not, and the main thread then names no senior:
  `NoSeniorExample`.
- A log entry that overwrites another leaves the overwritten bytes in the byte
  counter (src/private/PZGDatabaseState.cpp:49-54): `RunDrift` says by how much over
  any run, `CounterStaysExact` when the counter is exact, `DuplicateDrifts` gives a
  run in which it is not.
- The senior's own mark of the oldest ID in its log is set when an update enters an
  empty log and cleared when the log is empty, "to keep it correct"
  (src/private/PZGDatabaseState.cpp:56,71), and trimming does not move it:
  `MarkIsOldestIff` says that it is right exactly as long as nothing has been trimmed.
  Beacons do not use it: `AdvertisesExactly`.
- The roster's order follows the heartbeat thread's list only while the surviving
  peers keep their relative order (src/private/PZGHeartbeatSession.cpp:72-82):
  `UpdateFollows`, `ReorderExample`.
- A lost full-database order is never repeated by itself
  (src/private/PZGDatabaseState.cpp:533). `StallsIff` says exactly which steps leave
  a junior behind with nothing to do, `WakesIff` and `StaysStalled` what gets it
  going again, `StallIsReachable` gives a run that ends there, and
  `EveryRunConverges` shows that nothing else stands in the way.
- Inserting a column moves a chord at the last 32-bit index round to index 0
  (demos/choir/MusicSheet.cpp:142-154), so deleting the column again does not give
  the song back: `DeleteUndoesInsert`, `LastChordExample`.
- Stopping discovery forgets the known systems without telling the targets
  (src/discovery/client/SystemDiscoveryClient.cpp:555-560): `StopTellsNobody`,
  `StopExample`.
- Round-trip samples far enough apart saturate the sum of squares, and the average
  of the samples left may be 0 (src/clocksync/ZGTimeAverager.cpp:22-44):
  `SurvivesIff` says exactly when a sample survives, `FilteredBetween` what the
  average then is, `SaturationExample` gives two samples of which neither does.
- Heartbeat counts above 16 bits, a peer type with its top bit set, and attributes
  that are present and empty do not survive the wire: `RoundTripIff`,
  `EmptyAttributesExample`.

## Model

| member | source | states |
|---|---|---|
| ReplicaSafety.ReplicasAreFaithful | src/private/PZGDatabaseState.cpp:116-219 | in every run, under any loss, duplication and reordering, a junior at state k holds exactly the senior's content of state k, with that content's checksum |
| ReplicaSafety.ReplicasAgree | src/private/PZGDatabaseState.cpp:236-350 | two juniors at the same state ID, at any two moments of a run, hold the same database |
| ReplicaSafety.SeniorLogIsChained | src/private/PZGDatabaseState.cpp:82-105 | in every run each post-update checksum in the senior's log is the next entry's pre-update checksum, and the last one is the current checksum |
| ReplicaSafety.LogsAreChained | src/private/PZGDatabaseState.cpp:82-105 | in every junior's log too each post-update checksum is the next entry's pre-update checksum, and where it and the senior's log overlap or adjoin they agree |
| ReplicaSafety.StepSound | src/private/PZGDatabaseState.cpp:116-597 | every protocol step keeps all messages, logs and replicas true to the senior's history |
| ReplicaSafety.ReplaySound | src/private/PZGDatabaseState.cpp:284-343 | the replay loop keeps a faithful replica faithful |
| ReplicaSafety.ReplaceSound | src/private/PZGDatabaseState.cpp:408-438 | a full replace from a sound reply always succeeds and gives the content of the state it names |
| ReplicaSafety.RequestSound | src/private/PZGDatabaseState.cpp:116-199 | a successful request extends the senior's history by one state; a failed one leaves it as it was |
| ReplicaSafety.BirthIsReplicated | src/private/PZGDatabaseState.cpp:8-25 | a system at birth satisfies the invariant the theorems start from |
| ReplicaSafety.BeaconsTellTheTruth | src/private/PZGDatabaseState.cpp:502-505 | in every run each beacon ever sent names a state the senior was in and the checksum of what it held there |
| Chronicle.HistoryIsWritten | src/private/PZGDatabaseState.cpp:116-199 | in every run the senior's history is exactly the fold of the requests accepted, each carried out by the application's own hook: the initial database, the loaded one, or what the senior update makes of the current one |
| Chronicle.RequestsArrive | src/private/PZGDatabaseState.cpp:116-219 | from a request to every copy: a junior at the state an accepted request made, at any later moment of any run, holds what the application made of the senior's content at the time |
| Chronicle.RequestEffect | src/private/PZGDatabaseState.cpp:116-199 | a request is accepted exactly if the application carries it out; the new content is then the hook's result and the new entry has the request's kind, both checksums and what the juniors are to execute; a refused one has the status of its kind, makes no new state and keeps what the hook left |
| Numbering.BirthIsNumbered | src/private/PZGDatabaseState.cpp:8-25 | a system at birth satisfies the invariant the numbering theorems start from |
| Numbering.MonotoneJunior | src/private/PZGDatabaseState.cpp:263-345 | for any application, even a faulty one, a junior's state ID never decreases and never exceeds the senior's, full replaces included |
| Numbering.MovesAreRecorded | src/private/PZGDatabaseState.cpp:375-438 | for any application, an ID is only moved to when the junior's checksum is the one the senior recorded for it |
| Numbering.JuniorStepNumbered | src/private/PZGDatabaseState.cpp:520-552 | one junior step never moves back, since nothing is replayed while a full resend is outstanding |
| Numbering.ReplayMovesRecorded | src/private/PZGDatabaseState.cpp:284-343 | the replay loop moves one ID at a time, each recorded with the checksum reached |
| SeniorLog.RunLog | src/private/PZGDatabaseState.cpp:240-257 | in every run multicasts ascend with no ID twice, the log is gap-free up to the local state, the byte counter is exact, and while sends succeed no beacon runs ahead of its updates |
| SeniorLog.BirthLogOk | src/private/PZGDatabaseState.cpp:8-25 | a system at birth satisfies the invariant the log theorems start from |
| SeniorLog.StepLog | src/ZGPeerSession.cpp:494-515 | every step keeps the log invariant, because the pulse rescans before it publishes |
| SeniorLog.CanServe | src/private/PZGDatabaseState.cpp:572-597 | any ID from the oldest one a beacon advertises up to the current state can be served as a back-order, at any moment of any run |
| SeniorLog.AdvertisesExactly | src/private/PZGDatabaseState.cpp:502-505 | in every run, while the log has any update, the IDs from the oldest to the current one that a beacon advertises are exactly those in the log |
| SeniorLog.MarkIsOldestIff | src/private/PZGDatabaseState.cpp:43-73 | in every run from birth the senior's own oldest-ID mark is the oldest ID in its log exactly as long as nothing has been trimmed |
| LogBudget.NewestCanBeServed | src/private/PZGDatabaseState.cpp:256 | at any moment of any run from birth every update from which on the payloads fit in the byte budget together is in the senior's log and can be served |
| LogBudget.RunBudgeted | src/private/PZGDatabaseState.cpp:236-257 | every run keeps the log holding the newest updates that fit, with the sizes of the payloads that were recorded |
| SeniorLog.RunCounters | src/private/PZGDatabaseState.cpp:43-59 | in every run no junior's byte counter falls below the bytes in its log |
| SeniorLog.RunDrift | src/private/PZGDatabaseState.cpp:43-73 | over every run a junior's byte counter exceeds the bytes in its log by exactly the payload bytes that were filed over |
| SeniorLog.CounterStaysExact | src/private/PZGDatabaseState.cpp:43-73 | so it stays exact in every run that files no ID already in the log |
| SeniorLog.DuplicateDrifts | src/private/PZGDatabaseState.cpp:201-208 | a run in which a multicast update that arrives twice leaves it too high by that update's size |
| SeniorLog.PulseCovers | src/private/PZGDatabaseState.cpp:244-253 | after a pulse without failed sends every update of the tenure has been handed to multicast |
| Stall.StallsIff | src/private/PZGDatabaseState.cpp:236-350 | a junior that is behind and has something pending or on order is left behind with neither by exactly these steps: a rescan that can order nothing where it stops or knows of nothing further, a full database that does not come or is refused, an update that does not come when the full database cannot be ordered |
| Stall.ReplayStops | src/private/PZGDatabaseState.cpp:284-343 | the replay stops exactly where the logged updates stop succeeding, and places no order exactly under the guards of the branches there |
| Stall.AnswerStallsIff | src/private/PZGDatabaseState.cpp:520-552 | which answers to the only order leave nothing to do |
| Stall.LosingFullOrderStalls | src/private/PZGDatabaseState.cpp:525-534 | in particular, losing the full-database order does |
| Stall.StallIsReachable | src/private/PZGDatabaseState.cpp:266-274 | a run from birth, for any application, that ends with a stalled junior: its connection is lost while the full database is on order |
| Stall.WakesIff | src/private/PZGDatabaseState.cpp:507-518 | exactly an arriving update or a beacon that says something new wakes a stalled junior that is attached |
| Stall.StaysStalled | src/private/PZGUnicastSession.cpp:138-152 | in every run without those, new requests, older beacons known already, pulses and reconnections included, it stays as it is |
| Convergence.IdleMeansCaughtUp | src/private/PZGDatabaseState.cpp:236-350 | in every run from birth in which a junior's orders go out and the full database comes when ordered: whenever it has nothing pending and nothing on order and last heard a beacon of the senior's current state, it is at that state with the senior's content |
| Settling.EveryRunConverges | src/private/PZGDatabaseState.cpp:236-350 | after any fair run from birth that has brought a junior the senior's current beacon, in every run without a new request in which its connection holds: what it does is bounded by a number fixed at the start plus the multicast updates still arriving, it can go on as long as it is not idle, and when it is idle it has the senior's state and content |
| Settling.StepRank | src/private/PZGDatabaseState.cpp:236-350 | each rescan, each order served and each answer taken leaves strictly less to do |
| Settling.SomethingToDo | src/private/PZGDatabaseState.cpp:236-350 | a junior that is not idle has something to do that can be done |
| Convergence.Converges | src/private/PZGDatabaseState.cpp:236-350 | from every reachable state, a run of the senior's next beacon, if it is news, at most two rescans, and orders served and answered takes an attached junior with nothing on order to the senior's state and content |
| Convergence.StepAwake | src/private/PZGDatabaseState.cpp:507-552 | under those conditions every step leaves a junior that knows of a further state something pending or on order |
| Convergence.FirstPulse | src/private/PZGDatabaseState.cpp:263-345 | the first pulse after a beacon ends at its state, orders the full database, or orders all that is missing and nothing the senior no longer has |
| Rescan.ReplayIsFold | src/private/PZGDatabaseState.cpp:284-343 | the replay loop leaves the fold of exactly the consecutive logged updates it passed, with the last one's recorded checksum, or the next update applied on top if that one failed |
| Rescan.RescanCompletes | src/private/PZGDatabaseState.cpp:259-349 | with sends succeeding and a beacon heard, a whole rescan, trim included, ends at the target, with the full database on order, or with every ID up to the target logged or on order |
| Rescan.OrderMissingAsksForAll | src/private/PZGDatabaseState.cpp:317-338 | every ID up to the target is then logged or on order |
| Rescan.OrderMissingExactly | src/private/PZGDatabaseState.cpp:317-338 | whichever sends fail: a missing update is ordered exactly if its order goes out and none before it was refused, and the full database exactly if one was refused and its order goes out |
| Rescan.RescanWaits | src/private/PZGDatabaseState.cpp:263-266 | while the full database is on order a rescan executes nothing and orders nothing |
| Rescan.RescanMarksSent | src/private/PZGDatabaseState.cpp:259-262 | a junior's rescan marks everything up to the state it started at as sent |
| Rescan.StaleAnswerIsDropped | src/private/PZGDatabaseState.cpp:520-552 | an answer from a peer no longer senior only clears its order, and an answer nobody asked for changes nothing |
| Database.Target | include/zg/private/PZGDatabaseState.h:72 | the newest state there is any sign of, in the log or in a beacon |
| Rescan.SentExactly | src/private/PZGDatabaseState.cpp:244-253 | the scan sends exactly the unsent logged updates whose send succeeds, ascending, and moves the mark past them |
| Rescan.SeniorTrimKeeps | src/private/PZGDatabaseState.cpp:256 | a senior's trim drops only the oldest updates, never the last one, and does not stop before the log fits or has one entry; that it drops no more is `SeniorTrimMinimal` |
| LogBudget.SeniorTrimMinimal | src/private/PZGDatabaseState.cpp:256 | a senior's trim drops nothing, or exactly the entries up to one with which the log would not fit its budget |
| LogBudget.TrimLeavesWhatFits | src/private/PZGDatabaseState.cpp:256 | a log within its budget is left alone, on a senior and on a junior |
| Rescan.JuniorTrimKeeps | src/private/PZGDatabaseState.cpp:348 | with no full resend pending a junior never trims an update above its state |
| LogBudget.JuniorTrimStops | src/private/PZGDatabaseState.cpp:348 | a junior's trim drops the oldest entries only, no more than had to go, and does not stop before the log fits, one entry is left, or the first one is still needed |
| Rescan.AddDrift | src/private/PZGDatabaseState.cpp:43-59 | adding an update makes the byte counter exceed the truth by exactly the payload it overwrote |
| Rescan.RemoveDrift | src/private/PZGDatabaseState.cpp:61-73 | removing an update does not change by how much the byte counter exceeds the truth |
| Rescan.RequestDrift | src/private/PZGDatabaseState.cpp:116-199 | a request keeps a senior's counter exact, completed or rolled back |
| Database.RequestShape | src/private/PZGDatabaseState.cpp:116-199 | a successful request adds one entry with the next ID and the checksums before and after; a failed one leaves no trace |
| Database.ExecuteFrame | src/private/PZGDatabaseState.cpp:375-406 | an executed update moves exactly one ID on, to the checksum it recorded, and touches nothing but content, checksum and ID |
| Database.OrderMissingFrame | src/private/PZGDatabaseState.cpp:317-338 | ordering only ever adds orders |
| Database.ReplayFrame | src/private/PZGDatabaseState.cpp:284-343 | replaying leaves log, counters and beacon data alone and drops no order |
| DatabaseStateObject.DatabaseState.constructor | src/private/PZGDatabaseState.cpp:8-25 | a fresh database at state 0 |
| DatabaseStateObject.DatabaseState.ScheduleLogContentsRescan | src/private/PZGDatabaseState.cpp:34-41 | a rescan is pending afterwards if the peer is attached |
| DatabaseStateObject.DatabaseState.AddDatabaseUpdateToUpdateLog | src/private/PZGDatabaseState.cpp:43-59 | the whole new state, and that keys stay the IDs of their entries |
| DatabaseStateObject.DatabaseState.RemoveDatabaseUpdateFromUpdateLog | src/private/PZGDatabaseState.cpp:61-73 | the whole new state, the empty-log mark included, and that keys stay the IDs of their entries |
| DatabaseStateObject.DatabaseState.SeniorUpdateCompleted | src/private/PZGDatabaseState.cpp:82-105 | the entry gets its post-update checksum and payload, and both IDs move on |
| DatabaseStateObject.DatabaseState.HandleDatabaseUpdateRequest | src/private/PZGDatabaseState.cpp:116-199 | the three senior requests with their error paths and rollbacks take the object to the state whose content, entry and status `RequestEffect` gives |
| DatabaseStateObject.ScanUnsent | src/private/PZGDatabaseState.cpp:244-253 | the backwards-then-forwards scan sends exactly the specified IDs |
| DatabaseStateObject.DatabaseState.MulticastUnsent | src/private/PZGDatabaseState.cpp:240-253 | the first-unsent mark after it |
| DatabaseStateObject.DatabaseState.TrimAsSenior | src/private/PZGDatabaseState.cpp:256 | the loop terminates, because keys are their entries' IDs, in the log that `SeniorTrimMinimal` and `SeniorTrimKeeps` describe |
| DatabaseStateObject.DatabaseState.RescanUpdateLogAsSenior | src/private/PZGDatabaseState.cpp:236-258 | multicast, then trim |
| DatabaseStateObject.DatabaseState.RequestBackOrderFromSeniorPeer | src/private/PZGDatabaseState.cpp:352-363 | the key is on order afterwards exactly when it reports success; a failed send is rolled back |
| DatabaseStateObject.DatabaseState.JuniorExecuteDatabaseUpdateAux | src/private/PZGDatabaseState.cpp:440-484 | the four update types and their missing payloads |
| DatabaseStateObject.DatabaseState.JuniorExecuteDatabaseReplace | src/private/PZGDatabaseState.cpp:408-438 | the ID is set only when the checksum matches |
| DatabaseStateObject.DatabaseState.JuniorExecuteDatabaseUpdate | src/private/PZGDatabaseState.cpp:375-406 | ID and both checksums are compared |
| DatabaseStateObject.DatabaseState.OrderMissingUpdates | src/private/PZGDatabaseState.cpp:317-338 | the loop orders what the specification says, falling back to the full database |
| DatabaseStateObject.DatabaseState.ReplayLog | src/private/PZGDatabaseState.cpp:284-343 | the loop terminates and computes the specification |
| DatabaseStateObject.DatabaseState.CatchUpWithSenior | src/private/PZGDatabaseState.cpp:263-345 | nothing is done while a full resend is awaited; a newcomer orders the full database |
| DatabaseStateObject.DatabaseState.TrimAsJunior | src/private/PZGDatabaseState.cpp:348 | the loop terminates in the log that `JuniorTrimStops` describes |
| DatabaseStateObject.DatabaseState.RescanUpdateLogAsJunior | src/private/PZGDatabaseState.cpp:259-349 | the whole junior rescan |
| DatabaseStateObject.DatabaseState.SeniorDatabaseStateInfoChanged | src/private/PZGDatabaseState.cpp:507-518 | a beacon that says nothing new changes nothing |
| DatabaseStateObject.DatabaseState.BackOrderResultReceived | src/private/PZGDatabaseState.cpp:520-552 | all four outcomes of an order, and a stale one |
| DatabaseStateObject.DatabaseState.VerifyOrFixLocalDatabaseChecksum | src/private/PZGDatabaseState.cpp:562-570 | the checksum is the recalculated one afterwards |
| DatabaseStateObject.DatabaseState.GetDatabaseUpdateByID | src/private/PZGDatabaseState.cpp:572-597 | a logged update, or the saved database as a replace of the current state |
| Chords.UpdateNoteHistogram | demos/choir/MusicData.cpp:44-66 | every note of the chord is counted one up, or one down but not below zero, no other changes; the bit-chord stays the set of counted notes |
| Chords.CountIn | demos/choir/MusicData.cpp:44-66 | counting a new entry in gives what a full scan of the larger table gives |
| Chords.CountOut | demos/choir/MusicData.cpp:44-66 | counting an entry out gives what a full scan of the smaller table gives |
| Chords.UsedExactly | demos/choir/MusicData.cpp:44-66 | the bit-chord is exactly the notes some entry uses |
| MusicSheets.DeleteUndoesInsert | demos/choir/MusicSheet.cpp:142-189 | delete after insert at the same index is the identity exactly when no chord sits at the last 32-bit index |
| MusicSheets.LastChordExample | demos/choir/MusicSheet.cpp:142-178 | a song with one chord, at the last index, is empty after an insertion and a deletion |
| MusicSheets.SaveThenLoad | demos/choir/MusicSheet.cpp:67-107 | loading a saved song, into any song, gives it back |
| MusicSheets.JuniorFollowsSenior | demos/choir/MusicSheet.cpp:206-321 | the junior update on the message the senior update returned gives the senior's song; a refused command changes nothing |
| SheetEffects.ToggleFlips | demos/choir/MusicSheet.cpp:210-228 | a toggle flips the note in its column, leaves every other note, column and the path alone, and has the juniors set the column to what it now is |
| SheetEffects.ToggleTwice | demos/choir/MusicSheet.cpp:210-228 | toggling twice gives the song back |
| SheetEffects.InsertShifts | demos/choir/MusicSheet.cpp:230-236 | column by column what inserting leaves: later columns one further right, an empty one at the index, a chord in the last column come round |
| SheetEffects.DeleteShifts | demos/choir/MusicSheet.cpp:238-244 | column by column what deleting leaves: later columns one further left, the last one empty |
| SheetEffects.OtherCommands | demos/choir/MusicSheet.cpp:246-265 | a new path changes the path only, a no-op nothing, and any other message is refused |
| SheetEffects.JuniorSets | demos/choir/MusicSheet.cpp:267-321 | a chord set on a junior is in its column and nothing else changes; a toggle or unknown message is refused |
| SheetEffects.LoadReads | demos/choir/MusicSheet.cpp:67-91 | of any archive, well made or not: each column has the chord listed for it last, the others are empty, a missing path is the empty one, and nothing of the song before is left |
| SheetEffects.ChecksumOfColumn | demos/choir/MusicSheet.h:101 | a chord counts in the checksum as often as its column's number, counted from 1, on top of the path's |
| MusicSheets.InsertAt | demos/choir/MusicSheet.cpp:142-154 | column by column what an insertion leaves, the last column coming round to the first, where it is moved on if the insertion is there and it is not the only chord |
| MusicSheets.DeleteAt | demos/choir/MusicSheet.cpp:156-189 | column by column what a deletion leaves |
| MusicSheets.Save | demos/choir/MusicSheet.cpp:93-107 | the archive lists the song's chords in index order |
| MusicSheets.ChecksumRenamed | demos/choir/MusicSheet.cpp:35-43 | the running checksum after a renaming is the recalculated one |
| MusicSheets.ChecksumWith | demos/choir/MusicSheet.cpp:45-50 | the running checksum with one more chord is the recalculated one |
| MusicSheets.ChecksumWithout | demos/choir/MusicSheet.cpp:45-50 | the running checksum with one chord fewer is the recalculated one |
| MusicSheetObject.MusicSheet.constructor | demos/choir/MusicSheet.cpp:6-9 | the default song, with derived fields to match |
| MusicSheetObject.MusicSheet.SetToDefaultState | demos/choir/MusicSheet.cpp:52-65 | the default song, with derived fields to match |
| MusicSheetObject.MusicSheet.SetPath | demos/choir/MusicSheet.cpp:35-43 | the new path; the checksum stays what a full scan gives |
| MusicSheetObject.MusicSheet.PutChord | demos/choir/MusicSheet.cpp:109-140 | one column changes; checksum, histogram and used notes stay what a full scan gives, and no chord stored is zero |
| MusicSheetObject.MusicSheet.InsertChordAt | demos/choir/MusicSheet.cpp:142-154 | the in-place backward loop, with its iterator going on to what was nearest when the entry was removed, leaves the specified columns |
| MusicSheetObject.MusicSheet.MoveChordsBackOneStartingAt | demos/choir/MusicSheet.cpp:180-189 | the in-place forward loop moves every chord from there one column left |
| MusicSheetObject.MusicSheet.DeleteChordAt | demos/choir/MusicSheet.cpp:156-178 | the chord is gone and those after it stand one column to the left |
| MusicSheetObject.MusicSheet.InsertThenDelete | demos/choir/MusicSheet.cpp:142-189 | the identity on chords, checksum, histogram and used notes, exactly when no chord sits at the last index |
| MusicSheetObject.MusicSheet.UpdateFromArchive | demos/choir/MusicSheet.cpp:78-91 | chords put in archive order over what was there |
| MusicSheetObject.MusicSheet.SetFromArchive | demos/choir/MusicSheet.cpp:67-76 | the archived song, or a refusal that changes nothing |
| MusicSheetObject.MusicSheet.SaveToArchive | demos/choir/MusicSheet.cpp:93-107 | the loop lists every chord once in index order, and loading the archive into any song gives this song |
| MusicSheetObject.MusicSheet.SeniorUpdate | demos/choir/MusicSheet.cpp:206-265 | the song and the message for the juniors that `ToggleFlips`, `InsertShifts`, `DeleteShifts` and `OtherCommands` describe, all derived fields right |
| MusicSheetObject.MusicSheet.JuniorUpdate | demos/choir/MusicSheet.cpp:267-321 | the new song, all derived fields right |
| AssignmentTables.SaveThenLoad | demos/choir/NoteAssignmentsMap.cpp:38-67 | loading a saved table, into any table, gives back entries, order and strategy |
| AssignmentTables.SetNotesProper | demos/choir/NoteAssignmentsMap.cpp:95-127 | no stored chord becomes zero and the order lists exactly the peers with notes, each once |
| AllocatorEffects.OrphansGoToTheLight | demos/choir/NoteAssignmentsMap.cpp:232-245 | in every mode that is not manual a peer that gained an orphan ends that stage at most one note ahead of any online peer; in assisted mode the whole review ends so |
| AllocatorEffects.AssignOrphansShares | demos/choir/NoteAssignmentsMap.cpp:233-242 | after any number of notes has been gone through, whoever was given one is at most one note ahead of anyone online |
| AllocatorEffects.ChangedIff | demos/choir/NoteAssignmentsMap.cpp:212-293 | in every mode the review reports a change exactly when the table is another one |
| AllocatorEffects.BalanceGoesOneWay | demos/choir/NoteAssignmentsMap.cpp:274-290 | balancing moves nothing to and fro: each online peer only loses notes or only gains them |
| AllocatorEffects.DedupeKeepsFirst | demos/choir/NoteAssignmentsMap.cpp:248-270 | a peer keeps a note exactly if no peer before it in the table has it |
| AllocatorEffects.PruneMeans | demos/choir/NoteAssignmentsMap.cpp:217-227 | a peer keeps its notes exactly if it, or a peer before it in the table, is online |
| AllocatorEffects.LightestIsFirst | demos/choir/NoteAssignmentsMap.cpp:176-192 | of several online peers with the fewest notes the first is chosen |
| AllocatorEffects.HeaviestIsFirst | demos/choir/NoteAssignmentsMap.cpp:194-210 | of several online peers with the most notes the first is chosen |
| AllocatorTheorems.AutomaticReview | demos/choir/NoteAssignmentsMap.cpp:212-293 | in automatic mode, whoever is online: a note ends with exactly one holder if and only if the song uses it or a peer that was not forgotten had it, no note has two, and online loads differ by at most one |
| AllocatorTheorems.AllOnlineReview | demos/choir/NoteAssignmentsMap.cpp:212-293 | with all assigned peers online: exactly the used notes and the notes assigned before end with one holder each, so none is lost; all holders are online and their loads differ by at most one |
| AllocatorTheorems.UnchangedReview | demos/choir/NoteAssignmentsMap.cpp:212-293 | if the review reports no change, the table is untouched, in every mode |
| AllocatorTheorems.ReviewProper | demos/choir/NoteAssignmentsMap.cpp:212-293 | a review keeps the table proper and the strategy as it was |
| AllocatorTheorems.OnlyOnlineIff | demos/choir/NoteAssignmentsMap.cpp:217-227 | after a review in any mode that is not manual, whoever is online, only online peers have notes exactly if: in assisted mode, the pass forgot everyone who left; in automatic mode, nobody it did not forget has a note that no peer before it has |
| AllocatorTheorems.NobodyOnline | demos/choir/NoteAssignmentsMap.cpp:217-230 | with nobody online a review that is not manual leaves the table empty |
| AllocatorTheorems.StrandedExample | demos/choir/NoteAssignmentsMap.cpp:219 | a table for which a peer that left keeps its notes after an automatic review |
| AllocatorTheorems.AssistedExample | demos/choir/NoteAssignmentsMap.cpp:244-245 | a table for which a peer that left keeps a note others have too, after an assisted review |
| AllocatorTheorems.AssignOrphansFills | demos/choir/NoteAssignmentsMap.cpp:233-242 | exactly the used notes nobody had are given out, to online peers, and nothing assigned changes hands |
| AllocatorTheorems.DedupeAtMostOnce | demos/choir/NoteAssignmentsMap.cpp:248-270 | afterwards no note has two holders |
| AllocatorTheorems.DedupeKeepsAssigned | demos/choir/NoteAssignmentsMap.cpp:248-270 | a note keeps a holder exactly if it had one |
| AllocatorTheorems.BalanceShuffles | demos/choir/NoteAssignmentsMap.cpp:274-290 | balancing moves notes between online peers only, each note keeping as many holders, and ends balanced |
| AllocatorTheorems.MovesNote | demos/choir/NoteAssignmentsMap.cpp:280-286 | one move takes the highest choir note of the heaviest online peer to the lightest one, and nothing else |
| Allocator.LastNote | demos/choir/NoteAssignmentsMap.cpp:170-174 | the highest choir note in the chord |
| Allocator.MoveNoteLowersEnergy | demos/choir/NoteAssignmentsMap.cpp:276-289 | each move lowers the sum of squared loads, so the endless loop ends |
| Allocator.Lightest | demos/choir/NoteAssignmentsMap.cpp:176-192 | an online peer with no more notes than any other |
| Allocator.Heaviest | demos/choir/NoteAssignmentsMap.cpp:194-210 | an online peer with no fewer notes than any other |
| Allocator.LeadingRun | demos/choir/NoteAssignmentsMap.cpp:219-227 | the offline peers at the head of the table, up to the first online one |
| NoteAssignments.JuniorFollowsSenior | demos/choir/NoteAssignmentsMap.cpp:314-414 | for every table and command, the junior update on the senior's message gives the senior's table, order included; a refused command changes nothing |
| AssignmentEffects.ToggleFlips | demos/choir/NoteAssignmentsMap.cpp:318-325 | a toggle flips the note for its peer, leaves every other note, peer and the strategy alone, and is passed on |
| AssignmentEffects.ToggleForNobody | demos/choir/NoteAssignmentsMap.cpp:129-161 | a toggle for no peer in particular takes the note from everyone and nothing else |
| AssignmentEffects.OrphansUnassigned | demos/choir/NoteAssignmentsMap.cpp:329-345 | exactly the peers that left lose their notes, the others keep notes and order, and the juniors are sent the table exactly if it changed |
| AssignmentEffects.ReviewIsCarriedOut | demos/choir/NoteAssignmentsMap.cpp:350-371 | a review is refused without a song and otherwise carried out, and the juniors are sent the table exactly if it changed |
| AssignmentEffects.OtherCommands | demos/choir/NoteAssignmentsMap.cpp:347-385 | a new strategy changes the strategy only, a no-op nothing, and any other message is refused |
| AssignmentEffects.LoadReads | demos/choir/NoteAssignmentsMap.cpp:38-54 | of any archive: each peer has the notes listed for it last, the others none, the strategy is the archived one, and nothing of the table before is left |
| AssignmentEffects.ChecksumOfEntry | demos/choir/NoteAssignmentsMap.h:90 | an entry counts in the checksum with its peer's and its chord's, on top of the strategy |
| NoteAssignments.ToggleTwice | demos/choir/NoteAssignmentsMap.cpp:139-161 | toggling a note twice restores everyone's notes, and the table's order exactly unless the peer had only that note and was not last |
| NoteAssignments.SeniorProper | demos/choir/NoteAssignmentsMap.cpp:314-385 | every command keeps the table proper |
| NoteAssignments.ChecksumRestrategized | demos/choir/NoteAssignmentsMap.cpp:88-93 | the running checksum after a change of strategy is the recalculated one |
| NoteAssignments.ChecksumWith | demos/choir/NoteAssignmentsMap.cpp:72-77 | the running checksum with one more entry is the recalculated one |
| NoteAssignments.ChecksumWithout | demos/choir/NoteAssignmentsMap.cpp:72-77 | the running checksum with one entry fewer is the recalculated one |
| NoteAssignmentsObject.NoteAssignmentsMap.constructor | demos/choir/NoteAssignmentsMap.cpp:8-11 | the default table, with derived fields to match |
| NoteAssignmentsObject.NoteAssignmentsMap.SetToDefaultState | demos/choir/NoteAssignmentsMap.cpp:29-36 | the default table, with derived fields to match |
| NoteAssignmentsObject.NoteAssignmentsMap.SetAssignmentStrategy | demos/choir/NoteAssignmentsMap.cpp:88-93 | the strategy changes; the checksum stays what a full scan gives |
| NoteAssignmentsObject.NoteAssignmentsMap.SetNoteAssignmentsForPeerID | demos/choir/NoteAssignmentsMap.cpp:95-127 | one peer's notes change, no notes meaning no entry; checksum, histogram and assigned notes stay what a full scan gives |
| NoteAssignmentsObject.NoteAssignmentsMap.UnassignNote | demos/choir/NoteAssignmentsMap.cpp:129-136 | nobody has the note; everyone else's notes and order as before |
| NoteAssignmentsObject.NoteAssignmentsMap.HandleToggleAssignmentMessage | demos/choir/NoteAssignmentsMap.cpp:139-161 | toggles one peer's note, or takes the note from everyone |
| NoteAssignmentsObject.CountBits | demos/choir/NoteAssignmentsMap.cpp:163-168 | the number of choir notes in the chord |
| NoteAssignmentsObject.GetLastNoteInChord | demos/choir/NoteAssignmentsMap.cpp:170-174 | the highest choir note in the chord, or 0 if it has none |
| NoteAssignmentsObject.NoteAssignmentsMap.GetLightestPeer | demos/choir/NoteAssignmentsMap.cpp:176-192 | the first online peer with the fewest notes, and how many |
| NoteAssignmentsObject.NoteAssignmentsMap.GetHeaviestPeer | demos/choir/NoteAssignmentsMap.cpp:194-210 | the first online peer with the most notes, and how many |
| NoteAssignmentsObject.NoteAssignmentsMap.ForgetLeadingOfflinePeers | demos/choir/NoteAssignmentsMap.cpp:217-227 | the leading run of offline peers is gone, and whether there was one |
| NoteAssignmentsObject.NoteAssignmentsMap.AssignOrphanedNotes | demos/choir/NoteAssignmentsMap.cpp:233-242 | the loop gives each orphan to the peer lightest at that moment, as `AssignOrphansShares` describes, and reports whether there was one |
| NoteAssignmentsObject.NoteAssignmentsMap.RemoveDuplicates | demos/choir/NoteAssignmentsMap.cpp:247-270 | each note stays only with its first holder in table order, found note by note through the live histogram, and whether there was a duplicate |
| NoteAssignmentsObject.NoteAssignmentsMap.BalanceLoads | demos/choir/NoteAssignmentsMap.cpp:272-290 | the loop terminates balanced, and whether anything moved |
| NoteAssignmentsObject.NoteAssignmentsMap.SeniorAutoUpdateAssignments | demos/choir/NoteAssignmentsMap.cpp:212-293 | the whole review and its changed flag |
| NoteAssignmentsObject.NoteAssignmentsMap.UnassignOfflinePeers | demos/choir/NoteAssignmentsMap.cpp:327-345 | every offline peer is gone, and whether there was one |
| NoteAssignmentsObject.NoteAssignmentsMap.SetFromArchive | demos/choir/NoteAssignmentsMap.cpp:38-54 | the archived table, or a refusal that changes nothing |
| NoteAssignmentsObject.NoteAssignmentsMap.SaveToArchive | demos/choir/NoteAssignmentsMap.cpp:56-67 | the loop lists the entries in table order, each peer with its notes, and loading the archive into any table gives this table |
| NoteAssignmentsObject.NoteAssignmentsMap.SeniorUpdate | demos/choir/NoteAssignmentsMap.cpp:314-385 | the table and the message for the juniors that `AssignmentEffects` describes for each command, all derived fields right |
| NoteAssignmentsObject.NoteAssignmentsMap.JuniorUpdate | demos/choir/NoteAssignmentsMap.cpp:387-414 | the new table, all derived fields right |
| ChoirReplication.SheetIsCorrect | demos/choir/MusicSheet.cpp:67-321 | the song with its running checksum keeps the replication engine's bargain: the running checksum is the recalculated one after every update and load |
| ChoirReplication.MapIsCorrect | demos/choir/NoteAssignmentsMap.cpp:38-414 | the assignments with their running checksum keep the bargain, reviews included |
| ChoirReplication.SongsAreReplicated | src/private/PZGDatabaseState.cpp:116-597 | in every run from birth, a copy of the song at state k is the senior's song of state k, and its running checksum is that of a full scan |
| ChoirReplication.AssignmentsAreReplicated | src/private/PZGDatabaseState.cpp:116-597 | in every run from birth, a copy of the assignments at state k is the senior's table of state k, order included, and its running checksum is that of a full scan |
| ChoirReplication.SongCommandsArrive | demos/choir/MusicSheet.cpp:206-265 | in every run from birth a copy of the song at the state an accepted command made is what the command makes of the song the senior then had |
| ChoirReplication.AssignmentCommandsArrive | demos/choir/NoteAssignmentsMap.cpp:314-385 | the same for the assignments, reviews included |
| ChoirReplication.SheetSeniorHook | demos/choir/MusicSheet.cpp:206-265 | the senior hook proved correct is what the object's method does to contents and running checksum |
| ChoirReplication.SheetJuniorHook | demos/choir/MusicSheet.cpp:267-321 | the junior hook proved correct is what the object's method does |
| ChoirReplication.SheetLoadHook | demos/choir/MusicSheet.cpp:67-91 | the load hook proved correct is what the object's method does |
| ChoirReplication.MapSeniorHook | demos/choir/NoteAssignmentsMap.cpp:314-385 | the senior hook proved correct is what the object's method does to contents and running checksum |
| ChoirReplication.MapJuniorHook | demos/choir/NoteAssignmentsMap.cpp:387-414 | the junior hook proved correct is what the object's method does |
| ChoirReplication.MapLoadHook | demos/choir/NoteAssignmentsMap.cpp:38-54 | the load hook proved correct is what the object's method does |
| Heartbeats.ReachableIndexed | src/private/PZGHeartbeatThreadState.cpp:607-644 | in every reachable state a source is in the table exactly when its address is in its peer's queue, no queue is empty or repeats an address, and the local peer's sources stay |
| Heartbeats.OnlineAfterPulse | src/private/PZGHeartbeatThreadState.cpp:150-151 | in every run a remote source is online after a pulse exactly if that pulse, and every one since the source was last heard, came less than the timeout after it was; one of the local peer's own is, if ever heard |
| Heartbeats.OnlineWhileFresh | src/private/PZGHeartbeatThreadState.cpp:539-556 | at any moment of any run a source is on record with its last heartbeat, which expires the timeout after its arrival, exactly while no pulse has come later than that |
| Heartbeats.NeverHeard | src/private/PZGHeartbeatThreadState.cpp:629-644 | a source never heard from is never online |
| Heartbeats.NothingExpiredAfterPulse | src/private/PZGHeartbeatThreadState.cpp:150-151 | after each pulse no source past its expiry remains |
| Heartbeats.SweepExact | src/private/PZGHeartbeatThreadState.cpp:150-151 | a sweep keeps exactly the unexpired sources, unchanged, and a peer stays known exactly while it has one |
| Heartbeats.HeardIndexed | src/private/PZGHeartbeatThreadState.cpp:539-556 | a heartbeat sets exactly its own source, makes its peer known, and keeps the index |
| Heartbeats.HeardOrder | src/private/PZGHeartbeatThreadState.cpp:539-556 | a source whose type and identity are as they were keeps its place in the table and its queue; any other goes to the end of both |
| Heartbeats.ExpireIndexed | src/private/PZGHeartbeatThreadState.cpp:607-627 | expiry removes exactly one source and keeps the index |
| Heartbeats.NextKeeps | src/private/PZGHeartbeatThreadState.cpp:542-556 | only the local peer's sources never expire, and no input removes them |
| SeniorityOrder.KingmakerIsLowest | src/private/PZGHeartbeatThreadState.cpp:285-301 | the kingmaker is a source of the lowest-ID peer whose advertised list matches; there is none exactly when no list does |
| SeniorityOrder.SeniorityIsTotal | src/private/PZGHeartbeatThreadState.cpp:335-361 | the comparison is a strict total order on known peers |
| SeniorityOrder.MaxOver | src/private/PZGHeartbeatThreadState.cpp:309-333 | a bound on the field over all the peer's sources, and attained |
| SeniorityOrder.BySeniority | src/private/PZGHeartbeatThreadState.cpp:381-384 | a permutation of the known peers, most senior first |
| SeniorityOrder.EarlierIsSenior | src/private/PZGHeartbeatThreadState.cpp:341-354 | in that list the earlier of two peers has the larger type code, then the longer uptime, then the larger ID |
| SeniorityOrder.RankedIsUnique | src/private/PZGHeartbeatThreadState.cpp:381-384 | a list sorted by seniority is the only one of those peers, so the table's own order does not matter |
| SeniorityOrder.OrderedPeersIsPermutation | src/private/PZGHeartbeatThreadState.cpp:363-387 | the list worked out, adopted or sorted, names each known peer exactly once, if no list heard names a peer twice |
| SeniorityOrder.HeadIsFullIffAllAre | src/private/PZGHeartbeatThreadState.cpp:341-345 | of the list sorted locally, the head is a full peer exactly when all known peers are |
| Seniority.HeadIsFullInEveryRun | src/private/PZGHeartbeatThreadState.cpp:335-387 | in every run the head of the list a peer works out, sorted locally or adopted, is a full peer exactly when everyone in it is |
| SeniorityOrder.JuniorOnlyFirstExample | src/private/PZGHeartbeatThreadState.cpp:341-345 | a full and a junior-only peer: the list worked out starts with the junior-only one |
| SeniorityExample.MixedIsReachable | src/private/PZGHeartbeatThreadState.cpp:341-345 | a run from nothing leads a full peer to a list with a junior-only peer at its head |
| Seniority.EveryListIsPermutation | src/private/PZGHeartbeatThreadState.cpp:161-182 | in every run no advertised list names a peer twice and every list any peer could work out is a permutation of the peers it knows |
| Seniority.AgreementLasts | src/private/PZGHeartbeatThreadState.cpp:264-387 | with fixed membership, once all heartbeats of the lowest-ID full peer, recorded or in flight, carry one list, every later list any member works out is that one |
| Seniority.AgreementIsReached | src/private/PZGHeartbeatThreadState.cpp:264-387 | with fixed membership and a decided lowest-ID full peer, agreement is reached once every member has heard that peer again by each address it had an older heartbeat from |
| Seniority.KingDecides | src/private/PZGHeartbeatThreadState.cpp:285-301 | the lowest-ID full peer has decided on a list once it has heard that list from itself by every address it had an older one from, no other in between, and its older heartbeats are out of flight |
| SeniorityExample.AgreementIsReachable | src/private/PZGHeartbeatThreadState.cpp:161-182 | a run from nothing of two full peers that ends with both settled on one list |
| Seniority.DecidedStep | src/private/PZGHeartbeatThreadState.cpp:161-182 | a decided peer keeps advertising its list, and no step makes anyone's record of it stale |
| Seniority.StepSound | src/private/PZGHeartbeatThreadState.cpp:161-182 | every step keeps tables indexed and lists duplicate-free; only full peers up long enough advertise one |
| HeartbeatThreadObject.HeartbeatThreadState.constructor | src/private/PZGHeartbeatThreadState.cpp:39-58 | nothing heard, nothing pending |
| HeartbeatThreadObject.HeartbeatThreadState.ScheduleUpdateOfficialPeersList | include/zg/private/PZGHeartbeatThreadState.h:50 | an update is pending; the force flag only grows |
| HeartbeatThreadObject.HeartbeatThreadState.ExpireSource | src/private/PZGHeartbeatThreadState.cpp:607-627 | the source leaves both tables, and its peer too if it was the last |
| HeartbeatThreadObject.HeartbeatThreadState.IntroduceSource | src/private/PZGHeartbeatThreadState.cpp:629-644 | the source enters both tables |
| HeartbeatThreadObject.HeartbeatThreadState.RecordHeartbeat | src/private/PZGHeartbeatThreadState.cpp:539-556 | refreshed in place or replaced, and exactly when an update is forced |
| HeartbeatThreadObject.NoNewsIff | src/private/PZGHeartbeatThreadState.cpp:539-556 | a heartbeat forces no update of the list exactly if it is what is on record but for the uptime and the list of peers |
| HeartbeatThreadObject.HeartbeatThreadState.HeartbeatReceived | src/private/PZGHeartbeatThreadState.cpp:539-559 | the tables become the next ones of the runs `OnlineAfterPulse` is about; exactly when an update of the list is pending or forced, and when the clock is to be set again |
| HeartbeatThreadObject.HeartbeatThreadState.HeartbeatParsed | src/private/PZGHeartbeatThreadState.cpp:501-561 | a heartbeat of another version or system changes no field; any other is recorded, with all flags stated |
| HeartbeatThreadObject.HeartbeatThreadState.ExpireOldSources | src/private/PZGHeartbeatThreadState.cpp:150-151 | the loop computes the sweep, and forces an update of the list exactly if a source was lost |
| HeartbeatThreadObject.HeartbeatThreadState.PeersListMatchesIgnoreOrdering | src/private/PZGHeartbeatThreadState.cpp:264-269 | sizes equal and every listed peer known |
| HeartbeatThreadObject.HeartbeatThreadState.GetKingmakerPeerID | src/private/PZGHeartbeatThreadState.cpp:272-282 | the peer of the kingmaker source: the two scans agree |
| HeartbeatThreadObject.HeartbeatThreadState.GetKingmakerPeerSource | src/private/PZGHeartbeatThreadState.cpp:285-301 | the kingmaker source |
| HeartbeatThreadObject.HeartbeatThreadState.GetPeerTypeFromQueue | src/private/PZGHeartbeatThreadState.cpp:309-320 | the largest type code heard from the peer |
| HeartbeatThreadObject.HeartbeatThreadState.GetPeerUptimeSecondsFromQueue | src/private/PZGHeartbeatThreadState.cpp:322-333 | the longest uptime heard from the peer |
| HeartbeatThreadObject.HeartbeatThreadState.ComparePeerIDsBySeniority | src/private/PZGHeartbeatThreadState.cpp:335-361 | the comparison |
| HeartbeatThreadObject.HeartbeatThreadState.CalculateOrderedPeersList | src/private/PZGHeartbeatThreadState.cpp:363-387 | the kingmaker's list, or the sorted one |
| Roster.CallbacksReplay | src/private/PZGHeartbeatSession.cpp:31-89 | in every run the callbacks make sense and add up to exactly the latest list's peers as described there, and to the roster's senior |
| Roster.SensibleAlternates | src/ZGPeerSession.cpp:222-236 | in such a run the online and offline callbacks of a peer strictly alternate |
| Roster.OnlyWhatHappened | src/private/PZGHeartbeatSession.cpp:47-95 | one message makes no other callbacks than: offline for peers gone or not what they were, online for listed peers that did not stay, and last, exactly if the senior is another one, the change of senior |
| Roster.UpdateFollows | src/private/PZGHeartbeatSession.cpp:47-88 | one message: the roster holds exactly the listed peers, the survivors stand as they stood, and it is in the list's order exactly when they stand so in the list |
| Roster.FrontIsHeadIff | src/private/PZGHeartbeatSession.cpp:64-88 | the front of the roster is the head of the list exactly if that peer is new or was the first of the survivors; it is then the senior, if it is a full peer |
| Roster.ReorderExample | src/private/PZGHeartbeatSession.cpp:72-82 | two peers change places in the list and not in the roster, whose senior stays the first one |
| Roster.NoSeniorExample | src/private/PZGHeartbeatSession.cpp:224-232 | a full and a junior-only peer are online, and the roster made from the list worked out names no senior |
| Roster.DroppedAll | src/private/PZGHeartbeatSession.cpp:50-62 | the first loop leaves exactly the survivors, in their order |
| Roster.OrderBuilds | src/private/PZGHeartbeatSession.cpp:65-85 | the second loop builds the list's order step by step |
| RosterObject.HeartbeatSession.constructor | src/private/PZGHeartbeatSession.cpp:22-25 | an empty roster, no callbacks |
| RosterObject.GroupByPeer | src/private/PZGHeartbeatSession.cpp:35-45 | the packets by peer, peers in order of first mention |
| Roster.GroupHolds | src/private/PZGHeartbeatSession.cpp:35-45 | a peer's queue is its packets of the message in their order |
| Roster.GroupOrder | src/private/PZGHeartbeatSession.cpp:35-45 | of two listed peers the earlier one was mentioned before the other was |
| RosterObject.HeartbeatSession.DropPeersGone | src/private/PZGHeartbeatSession.cpp:50-62 | the loop computes the specification |
| RosterObject.HeartbeatSession.AddNewPeers | src/private/PZGHeartbeatSession.cpp:65-85 | the loop computes the specification |
| RosterObject.HeartbeatSession.GetSeniorPeerID | src/private/PZGHeartbeatSession.cpp:224-232 | the first peer, if it is a full one |
| RosterObject.HeartbeatSession.PeersUpdateReceived | src/private/PZGHeartbeatSession.cpp:27-96 | one message: table, order and callbacks, always in step |
| TimeAverager.FilteredBetween | src/clocksync/ZGTimeAverager.cpp:17-45 | if some sample survives, the average without outliers lies within any bounds the samples keep to; if none does, it is 0 |
| TimeAverager.FilteredIsMean | src/clocksync/ZGTimeAverager.cpp:17-45 | it is the average, rounded down, of the samples kept, or 0 if there are none |
| TimeAverager.KeptIff | src/clocksync/ZGTimeAverager.cpp:22-43 | a sample is kept exactly if its squared distance from the center, taken once for every sample, does not exceed the sum of all of them as far as 64 bits hold it |
| TimeAverager.RawBetween | include/zg/clocksync/ZGTimeAverager.h:33-36 | with an exact total the raw average lies within any bounds the samples keep to |
| TimeAverager.SomeSampleIsClose | src/clocksync/ZGTimeAverager.cpp:21-43 | unless the squares overflow, at least one sample is within one standard deviation of the center |
| TimeAverager.SurvivesIff | src/clocksync/ZGTimeAverager.cpp:21-43 | some sample survives exactly if the squares add up to less than 2^64 or some sample is within the deviation that a saturated sum amounts to |
| TimeAverager.SumOfDiffsCapped | src/clocksync/ZGTimeAverager.cpp:22-27 | saturating at every step of the sum of squares is saturating once at the end |
| TimeAverager.SmallSamplesAreSafe | src/clocksync/ZGTimeAverager.cpp:22-27 | for samples of up to nine minutes in a window of up to 32 some sample always survives |
| TimeAverager.SaturationExample | src/clocksync/ZGTimeAverager.cpp:22-44 | two samples so far apart that neither survives and the average is 0 |
| TimeAverager.ClockErrorBounded | src/private/PZGHeartbeatThreadState.cpp:253-256 | with all samples within e of twice the one-way delay the clock offset errs by at most (e+1)/2 |
| TimeAveragerObject.ZGTimeAverager.constructor | include/zg/clocksync/ZGTimeAverager.h:20 | an empty window |
| TimeAveragerObject.ZGTimeAverager.Clear | include/zg/clocksync/ZGTimeAverager.h:52 | an empty window, nothing cached |
| TimeAveragerObject.ZGTimeAverager.AddMeasurement | src/clocksync/ZGTimeAverager.cpp:6-15 | the window is its latest samples and the new one; the total stays the window's sum while that fits in 64 bits, and is never more |
| TimeAveragerObject.ZGTimeAverager.RemoveOldMeasurement | src/clocksync/ZGTimeAverager.cpp:47-55 | the oldest sample leaves; an exact total stays exact |
| TimeAveragerObject.ZGTimeAverager.GetRawAverageValue | include/zg/clocksync/ZGTimeAverager.h:33-36 | the largest value that, taken for every sample, does not exceed the total; with an exact total it lies between the smallest and the largest sample |
| TimeAveragerObject.ZGTimeAverager.GetAverageValueIgnoringOutliersAux | src/clocksync/ZGTimeAverager.cpp:17-45 | the two accumulator loops compute the filtered average |
| TimeAveragerObject.ZGTimeAverager.GetAverageValueIgnoringOutliers | include/zg/clocksync/ZGTimeAverager.h:42-46 | cached or not, the freshly computed value |
| DiscoveryRuns.NothingIsLost | src/discovery/client/SystemDiscoveryClient.cpp:499-522 | in every interleaving, known systems overlaid with pending updates are the last reported result set whenever neither thread is in the middle of something |
| DiscoveryRuns.StepConsistent | src/discovery/client/SystemDiscoveryClient.cpp:392-435 | every single step, in the middle of reporting or dispatching too, keeps known, grabbed and pending adding up to what was reported |
| DiscoveryRuns.DispatchTellsEveryone | src/discovery/client/SystemDiscoveryClient.cpp:574-603 | in every run without a stop, after each dispatch every registered target, new ones included, has had calls that add up to the known systems |
| DiscoveryRuns.StopTellsNobody | src/discovery/client/SystemDiscoveryClient.cpp:555-560 | after a stop the targets' calls still add up to the known systems exactly if nothing was known or nobody had been called |
| DiscoveryRuns.StopExample | src/discovery/client/SystemDiscoveryClient.cpp:555-560 | a run after which a target still believes in a system the client has forgotten |
| Discovery.ReportsAddUp | src/discovery/client/SystemDiscoveryClient.cpp:504-518 | the reports turn the old result set into the new one |
| Discovery.ReportsOnlyChanges | src/discovery/client/SystemDiscoveryClient.cpp:504-518 | a system is reported exactly if the two result sets do not agree on it, with what the new one says |
| Discovery.ToldOnce | src/discovery/client/SystemDiscoveryClient.cpp:504-602 | one pass reports a system at most once, and one dispatch tells a target of it at most once, a new target's backlog included |
| Discovery.OverlayPost | src/discovery/client/SystemDiscoveryClient.cpp:427-435 | coalescing two reports of a system loses nothing |
| Discovery.DeliveriesTellAll | src/discovery/client/SystemDiscoveryClient.cpp:582-602 | a new target and an old one both end with what the client then knows |
| DiscoveryObject.SystemDiscoveryClient.constructor | src/discovery/client/SystemDiscoveryClient.cpp:524-533 | nothing known, nobody registered |
| DiscoveryObject.SystemDiscoveryClient.ReportSystemUpdate | src/discovery/client/SystemDiscoveryClient.cpp:427-435 | a later report replaces an earlier one |
| DiscoveryObject.SystemDiscoveryClient.UpdateResultSet | src/discovery/client/SystemDiscoveryClient.cpp:499-522 | the differences are pending, and known plus pending is the new result set |
| DiscoveryObject.SystemDiscoveryClient.GrabUpdates | src/discovery/client/SystemDiscoveryClient.cpp:392-396 | the pending table changes hands |
| DiscoveryObject.SystemDiscoveryClient.NotifyTarget | src/discovery/client/SystemDiscoveryClient.cpp:584-598 | one target's calls, the backlog first if it is new |
| DiscoveryObject.SystemDiscoveryClient.DispatchCallbacks | src/discovery/client/SystemDiscoveryClient.cpp:574-603 | nothing pending, the known systems are the reported ones, and every target has been told exactly that |
| DiscoveryObject.SystemDiscoveryClient.RegisterTarget | src/discovery/client/SystemDiscoveryClient.cpp:619-622 | the target is new, again if it was registered already, and no other target changes |
| DiscoveryObject.SystemDiscoveryClient.UnregisterTarget | src/discovery/client/SystemDiscoveryClient.cpp:624-627 | the target is gone |
| DiscoveryObject.SystemDiscoveryClient.Stop | src/discovery/client/SystemDiscoveryClient.cpp:555-560 | everything is forgotten and the targets are not told |
| HeartbeatWire.RoundTripIff | src/private/PZGHeartbeatPacket.cpp:76-154 | reading back what was written gives every field and leaves what follows alone, exactly for packets whose counts fit in 16 bits, whose type leaves the top bit free and whose attributes are not present and empty |
| HeartbeatWire.EmptyAttributesExample | src/private/PZGHeartbeatPacket.cpp:137-149 | a packet whose empty attributes come back as absent |
| HeartbeatWire.FlattenWritesSize | src/private/PZGHeartbeatPacket.cpp:50-96 | exactly as many bytes are written as counted, for every packet |
| HeartbeatWire.HeaderReads | src/private/PZGHeartbeatPacket.cpp:107-125 | the header reads back field by field, the counts modulo 2^16 |
| HeartbeatWire.HeaderLayout | src/private/PZGHeartbeatPacket.cpp:76-96 | of a packet that survives the wire: at which byte each field of the header is, that the attached flag is the top bit of the type word, and that the peers follow at byte 50 |
| HeartbeatWire.PeerLayout | src/private/PZGHeartbeatPeerInfo.cpp:19-24 | at which byte the fields of a peer entry are |
| HeartbeatWire.TimingLayout | src/private/PZGHeartbeatPeerInfo.cpp:38-44 | at which byte the fields of a timing are |
| HeartbeatWire.PeerRoundTrip | src/private/PZGHeartbeatPeerInfo.cpp:19-36 | a peer entry with its timing list reads back |
| HeartbeatWire.TimingRoundTrip | src/private/PZGHeartbeatPeerInfo.cpp:38-53 | a timing reads back past its padding |
| HeartbeatWire.FlattenedSize | src/private/PZGHeartbeatPacket.cpp:66-74 | the loop computes the number of bytes written |
| HeartbeatWire.UnflattenPeers | src/private/PZGHeartbeatPacket.cpp:127-135 | the loop over the moving cursor reads the list, or fails, as specified |
| HeartbeatWire.UnflattenPacket | src/private/PZGHeartbeatPacket.cpp:98-154 | short, mistyped and truncated packets are refused; otherwise the specified packet |

## Left out

- 64-bit wrap-around of state IDs, times and byte counters: IDs and times are unbounded numbers, except where a row says otherwise (the averager's saturation, the clock offset, 32-bit chord indices and checksums).
- Taking over as senior with a log that holds IDs above one's own state: the theorems are about one tenure from a clean start.
- The gate in ZGPeerSession that refuses requests meant for the other role, database indices and several databases at once: one database, requests already at the right peer.
- Elapsed-time bookkeeping of updates, the nesting counters and the debugging comparison in PZGDatabaseState: they influence nothing else.
- ClearUpdateLog: nothing in the modelled code calls it.
- TimeAverager.FilteredBetween: the square root is the exact integer one instead of a rounded double, and the wrap-around of the sum of the samples kept and of the conversion to signed 64 bits is not modelled; the latter two cannot occur for samples below 2^58 in a window of 20.
- TimeAveragerObject.ZGTimeAverager.GetAverageValueIgnoringOutliersAux: computes that same average, with the exact root and without those two wrap-arounds.
- TimeAveragerObject.ZGTimeAverager.AddMeasurement: a window size of 0, for which the source's loop does not end, is excluded.
- The choice among several averagers of one heartbeat source and the measuring of round trips from timing lists: the samples are given.
- HeartbeatThreadObject.HeartbeatThreadState.HeartbeatReceived: the round-trip measurements taken from a heartbeat and the latency table are not modelled.
- Building the list of sources sent to the main thread and the comparison that suppresses an unchanged one.
- HeartbeatWire: the byte order inside an integer is a choice of the model (lowest byte first), and the 16-byte header and the compression around a packet are not part of it.
- Seniority.AgreementIsReached: that every peer is in fact heard again is an assumption about the network, not a result.
- Convergence.Converges: that the beacon and the answers do arrive is an assumption about the network; the theorem gives the run in which they do.
- Settling.EveryRunConverges: that what can be done is done in the end is an assumption about the schedule; older beacons that arrive later start it anew.
- DiscoveryObject.SystemDiscoveryClient.UpdateResultSet: how the result set is put together from raw replies is not modelled; the set is given.
- The choir's GUI messages, playback state and player, the other demos, Qt windows and audio: user interface and devices.
- Sockets, multicast addresses, interface enumeration, sleep and wake, threads: only the steps they deliver are modelled.
- MUSCLE's Message, Hashtable and zlib: values and maps.
- Running out of memory.
