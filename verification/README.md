# Verification of the delayed reclamation protocol

mulle-aba frees memory late: a thread that wants to free a pointer other threads may still be reading
hands it to `mulle_aba_free`, and its callback runs once every other thread has checked in. All
coordination goes through one compare-and-swap on a tagged *world pointer*. This project models the four
operations (`register`, `free`, `checkin`, `unregister`) down to their atomic steps, and the worlds and
timestamp storages down to their array slots, and proves what the library is for: a callback never runs
while a thread that was registered when the pointer was handed in could still hold it, it runs exactly
once, and nothing is left over when the last thread leaves.

`dafny verify dfyconfig.toml` checks everything.

## How the model is built

There are three layers.

*The step machine* (`AbaTypes`, `Protocol`). Any finite number of threads, each with a program counter
and the local variables the C functions keep. A step is one access to shared memory: a read of the
world pointer, one compare-and-swap, one operation on a timestamp entry, one callback. What each step
does is a `Do...` predicate over the shared state and the stepping thread; `ThreadStep` puts them
together. The retain count of a new timestamp is raised in a step of its own after the swap that
publishes the timestamp, so other threads may decrement first; `checkin` and `free` may overwrite a
locked world. Two history variables are carried along: `place` says where a world or a pointer is, and
`slot` which list it was assigned to. Theorems about places are stated against the physical state
(`Whereabouts.IsAt`), not against the history.

*Entries without a window* (`Entries`, `Machine`). Each timestamp has an entry: biased retain count,
list, in use or not. `Machine.Inv` is the invariant. It is proved inductive thread by thread: what the
stepping thread keeps for itself (`ThreadSteps`, `Preservation`), what it leaves to the others (`Rely`
in `Invariant`, `Interference`), how it moves items (`Places`, `Bookkeeping`) and how it counts
(`Counting`); `Induction.StepInv` is the result.

*Entries in memory* (`Windows`, `Storages`). Storages are rows of N slots with usage bits (N >= 2 is a
parameter) and an entry is found through the window of a world, as the C code finds it. `RealStep` is
the machine that runs on them. `RealRefinement.RealStepOk` shows that each of its steps is a step of
the protocol on entries without a window; `Runs` lifts this to whole runs, and all main theorems are
about runs of the machine in memory (`Runs.IsRun`), with any number of threads and any interleaving.

*The objects* (`WorldObjects`, `ReuseLoop`, `TimeRange`, `WorldSwaps`, `Retries`, `Represented`). Worlds
with a `storage` array and timestamp storages with usage bits and slots as classes, and the C functions
that update them in place as methods with their loops: pop, push, rotate, lookup, copy, the reuse loop,
the check-in loop, the swap callbacks, copying and growing under retries with their allocations, and a
whole `free` that nobody interferes with. Their contracts are stated with the functions of the second
layer (`Windows.Rotate`, `Windows.StorageIndex`, `Storages.ReuseNext`, `Storages.SetSlot`), so that what
is proved of those holds of the methods.

*What a step may be and what the source does.* The step machine lets a free make more plans than the
source would, so that safety is proved for all of them. `MakingRoom.FreeChoice` is the source's own
choice. `NeverStuck`, `SoloFree` and `LeftAlone` are about steps of that choice: there always is one, and
left alone they lead to the end of the free, the check-in, the unregister or the register.

*How the proofs are kept quick.* Many lemmas begin with a `hide` statement: the definitions it names are not
needed for that proof, only that they hold of the same arguments before and after.

### Why reorganising is safe

The reuse loop tests storage i, rotates storage 0 and never adjusts the index it stops at. It is right
nevertheless: timestamps finish in ascending order (`Accounting.UnfinishedAreSuffix`), so one idle
storage in row j, up to the row of the current timestamp, shows all rows up to j to be dead
(`Refinement.IdleMeansDead`). At iteration i with r rotations the storage tested is the one that was in
row i + r. Let f count the hits with i + r up to the current row. Since i >= r >= f, the f-th of them
shows at least 2f - 1 rows to be dead, and after hits of that kind have stopped there are at most f - 1
iterations left, so r <= 2f - 1 (`Planning.LoopOk`, `Planning.LoopDone`). The argument uses liveness
and not exact usage bits, because a free sets a bit before a swap that may fail.

### Which step is which part of the source

| steps | source |
|---|---|
| `DoCallRegister` to `DoChainDone` | src/mulle-aba.c:231-266, src/mulle-aba-storage.c:1139-1282 |
| `DoCallFree`, `DoFreeRead`, `DoFreeRetry`, `DoFreeAlone` | src/mulle-aba.c:877-905, src/mulle-aba.c:995-1018 |
| `DoFreePlan`, `Storages.PlanStep` | src/mulle-aba.c:902-957, src/mulle-aba-storage.c:1555-1607 |
| `DoFreeSwap`, `Storages.SwapStep` | src/mulle-aba.c:701-845, src/mulle-aba-storage.c:1285-1447 |
| `DoFreeAdd`, `DoFreeEnter`, `DoFreeAppend`, `DoFreeAppendOld`, `DoFreeDone` | src/mulle-aba.c:959-993, src/mulle-aba.c:1029-1070 |
| `DoFreeNow` | src/mulle-aba.c:882-890, src/mulle-aba.c:1001-1018 |
| `DoCallCheckin`, `DoLook` | src/mulle-aba.c:271-280, src/mulle-aba.c:298-347 |
| `DoMarkSeen` to `DoCopyFail` | src/mulle-aba-storage.c:993-1066, src/mulle-aba-storage.c:1285-1366 |
| `DoDecrement` to `DoWalkDone` | src/mulle-aba-storage.c:1481-1552 |
| `DoCallUnregister` to `DoLockFail` | src/mulle-aba.c:448-499, src/mulle-aba-storage.c:1090-1136 |
| `DoRemoveAgain`, `DoRemoveOk`, `DoRemoveLast` | src/mulle-aba.c:359-429, src/mulle-aba.c:513-519 |
| `DoUnlockOk`, `DoUnlockFail` | src/mulle-aba.c:521-539 |
| `DoLeak`, `DoClean`, `DoReopen` | src/mulle-aba.c:546-593 |

## Model

| member | source | states |
|---|---|---|
| `GracePeriod.SafeReclamation` | src/mulle-aba.c:877-1033 | grace period, for every callback that ever runs in any run: either the freeing thread found itself the only one registered, or the list was fixed in an earlier turn (a read of a world whose bit is 0, or the thread's own increment swap), and every thread registered at that turn has since set or seen the bit in a checkin for a timestamp at least that high, or has left |
| `HandedIn.SafeSinceCall` | src/mulle-aba.c:848-1071 | the same counted from the call of free: between the call and the callback every other thread registered at the call has left, or every thread registered at the call has given up the timestamp whose list the pointer is on, or has left |
| `GracePeriod.Grace` | src/mulle-aba.c:298-347 | the same, turn by turn: for each thread registered when the list was fixed there is a turn strictly in between in which it gives up the pointer |
| `GracePeriod.WasAlone` | src/mulle-aba.c:882-890 | a pointer that is freed at once was found, by the same thread, in a turn in which no other thread was registered |
| `GracePeriod.SlotStays` | src/mulle-aba.c:897-905 | once the list a pointer goes to is fixed it never changes, whatever other threads do |
| `GracePeriod.UnfixedUnslotted` | src/mulle-aba.c:895-905 | as long as a free is reading, planning or about to free at once, no list has been fixed for its pointer |
| `GracePeriod.Crossing` | src/mulle-aba.c:323-344 | a thread whose promise did not cover a timestamp and now does, or which is gone, has committed to it or left in some turn in between |
| `ExactlyOnce.Tally` | src/mulle-aba-storage.c:1539-1550 | over any run the number of free calls and of callbacks run for a pointer, counted from the turns, are 0 or 1 and agree with the history |
| `Whereabouts.Conservation` | src/mulle-aba.c:1029-1065 | callbacks run at most once per call of free; between the call and the callback, and at no other time, the pointer is in one of the places: a thread's hands, or the list of a slot in memory |
| `Whereabouts.OnePlace` | src/mulle-aba.c:151-178 | no world and no pointer is ever in two places at once (current, held by a thread, found alone, on the list of a slot, on the leak list) |
| `Whereabouts.WorldSomewhere` | src/mulle-aba-storage.c:592-610 | a world is in memory exactly as long as it is in one of those places |
| `Draining.NothingLeft` | src/mulle-aba.c:407-428 | when the last thread's unregister swap succeeds, every pointer ever given to free has had its callback run and every slot of the window has an empty list |
| `Draining.StoragesFreed` | src/mulle-aba.c:570-582 | after the last thread has cleaned up, no storage is allocated |
| `Transitions.EveryEdgeInTable` | src/mulle-aba-storage.c:713-816 | every successful swap of every run is in the transition table of the debug build; the edges 14 to 14 (free), 14 to 12 (unlock), 14 to 5 and 14 to 13 (unregister), 3 to 1 and 11 to 9 (unlock) are never taken; nothing else moves the pointer; time goes back only at the reset |
| `Attempts.EveryAttemptAllowed` | src/mulle-aba-storage.c:839-904 | every swap that any thread is about to try, in any state of any run, with whatever world pointer it has read, passes the assertions before the compare-and-swap: the table, and those on locked worlds, cleared bits and time |
| `Attempts.SwapsAreAttempts` | src/mulle-aba-storage.c:976-990 | each successful swap is one of these attempts, made with the current world pointer |
| `Attempts.FailuresAreAttempts` | src/mulle-aba-storage.c:1105-1135 | each step that reports a failed swap has made one of these attempts, with a world pointer that is no longer current |
| `Transitions.OnlyTheseStates` | src/mulle-aba-storage.c:1073-1085 | no states but 0, 1, 2, 3, 5, 7, 9 and 11 to 15 are reached, for any number of threads |
| `Safety.NoAba` | src/mulle-aba-storage.c:1305-1363 | no world that a running operation may still read or compare with, and no world a registering thread has locked, is given back or changed |
| `Safety.SwapReplacesCopy` | src/mulle-aba-storage.c:976-990 | every successful swap to a new world replaces exactly the world that was copied, pointer and contents |
| `Safety.SwappedOutGoesTo` | src/mulle-aba.c:164-177 | the world that is swapped out becomes the swapping thread's to dispose of, unless it was locked: then it stays with the thread that locked it |
| `Safety.ChainNeverRepeats` | src/mulle-aba-storage.c:1254-1273 | the test against collecting a locked world twice always succeeds: the world a registering thread has locked is never in its chain yet |
| `Safety.PublishedWorlds` | src/mulle-aba-storage.c:351-371 | every world in memory has threads if it has a timestamp, an offset that is a multiple of N, distinct storages within its size, and its timestamp in its window or 0 with no storages |
| `Safety.ThreadCount` | src/mulle-aba.c:206-212 | the thread count of the current world is the number of threads whose register swap succeeded and whose unregister swap has not, through all locks, failed swaps and overwritten locked worlds |
| `Safety.MembersAreRegistered` | src/mulle-aba.c:262-263 | those threads are the ones with a thread-local timestamp |
| `Safety.BitZeroMeaning` | src/mulle-aba.c:283-295 | while the bit is 0 no registered thread has promised or started to check in for the current timestamp, and its own timestamp is not later |
| `Safety.BitZeroCounted` | src/mulle-aba.c:701-715 | while the bit is 0 the threads that owe the current timestamp are exactly the registered ones |
| `NeverStuck.NeverStuck` | src/mulle-aba-storage.c:1139-1160 | in every state of every run a thread can take a step the source would take exactly if it is not waiting for the lock in order to register; for a free that step is the one it has chosen: a probe, a usage bit, a swap whenever its world is current, and a new read only if its world is outdated or its plan has failed |
| `MakingRoom.RetryMeans` | src/mulle-aba.c:995-999 | a free reads the world pointer again only if its world is no longer the current one or a plan made for it has failed |
| `SoloFree.FreeFinishesAlone` | src/mulle-aba.c:895-999 | in the last state of any run (so in every state of every run) any free with several threads registered ends by turns of its thread alone: the item is on a list, after exactly one swap if the bit is set and none otherwise, and after one new read exactly if the world it works on is outdated or the plan it is in the middle of is bound to fail |
| `SoloFree.FreeNearer` | src/mulle-aba.c:902-957 | every step of such a free, by increment, add, reorganise or grow as the source chooses, brings it nearer to its end, and accounts for its swap and its new read |
| `LeftAlone.CheckinFinishesAlone` | src/mulle-aba.c:298-347 | in the last state of any run (so in every state of every run) a registered thread that calls checkin returns from it by turns of its own alone; it then owes no timestamp up to the one of the world it read; it has counted down every timestamp it owed exactly once and no other, and has given each up in a turn in which it set or saw the bit; the bit is set when it returns; and it returns at once exactly if its own timestamp was later than that of the world |
| `LeftAlone.UnregisterFinishesAlone` | src/mulle-aba.c:448-593 | in the last state of any run a registered thread that calls unregister ends, by turns of its own alone, with its timestamp back at 0 and one thread less in the world, if it has something to check in for or the world pointer is not locked |
| `LeftAlone.UnregisterWaits` | src/mulle-aba-storage.c:1090-1136 | in the remaining case, nothing to check in for and the pointer locked by another thread, it never ends: however many turns it takes alone, it is still registered and still trying to lock |
| `LeftAlone.RegisterFinishesAlone` | src/mulle-aba.c:231-266 | in the last state of any run whose world pointer is not locked, a thread that calls register ends, by turns of its own alone, with the timestamp after that of the world it found, and with the world it swapped out disposed of |
| `LeftAlone.FreesAtOnce` | src/mulle-aba.c:882-890 | in the last state of any run a free that has still to read the world pointer, of a thread that is the only one registered, ends by two turns of its own: the callback has run, or the world is given back |
| `Locks.LockIsHeld` | src/mulle-aba-storage.c:1139-1160 | whenever a thread waits for the lock, another thread has locked the world pointer and can go on |
| `Locks.LockEnds` | src/mulle-aba-storage.c:1090-1282 | a thread that has locked the world pointer has given up or lost the lock after at most three turns of its own (one while registering or unlocking, two while cleaning up) |
| `Accounting.RetainCount` | src/mulle-aba.c:959-969 | in memory: biased count + 1 + what the creator still has to add is the number of registered threads that have not decremented the timestamp |
| `Accounting.UnfinishedAreSuffix` | src/mulle-aba-storage.c:1501-1551 | from the first unfinished timestamp on all are unfinished, inside the window, with their usage bits set |
| `Accounting.OthersArePristine` | src/mulle-aba-storage.c:93-115 | the slot of a finished timestamp and of one still to come holds -1 and an empty list |
| `Accounting.OwedIsAddressable` | src/mulle-aba-storage.c:1501-1509 | every timestamp a thread still has to check in for has a valid index in the current world and in the world it walks, and both lead to the same entry |
| `Accounting.ReorganiseIsSafe` | src/mulle-aba-storage.c:1573-1594 | a reorganised copy, concurrently with everything else, has rotated away only storages without unfinished timestamps, never the current one, and has room for the next timestamp |
| `Snipping.ZeroIsLast` | src/mulle-aba-storage.c:1513-1523 | a decrement finds zero exactly when its thread is the last one that owes the timestamp, even if decrements come before the add |
| `Snipping.SnipTakesAll` | src/mulle-aba-storage.c:1543-1545 | the list that is overwritten with null is still the list that was read: nothing is lost between the two steps |
| `Snipping.NoLateAppend` | src/mulle-aba.c:1032-1033 | after a timestamp's list was taken off nothing is ever appended to it, until the reset |
| `WindowHistory.WindowIsMap` | src/mulle-aba-storage.c:258-292 | in every run the slots of the current window hold the entries of an unbounded map from timestamps to entries, and entries in use are never outside of the window |
| `WindowHistory.WindowsGrow` | src/mulle-aba-storage.c:1370-1447 | while a thread stays registered every later window extends the earlier ones and has at least as many storages |
| `Runs.RunRefines` | src/mulle-aba-storage.c:1481-1552 | every run on storages in memory is, step by step, a run of the protocol on entries without a window |
| `Runs.RunJoint` | src/mulle-aba-storage.c:351-371 | the invariant and the coupling of storages and entries hold in every state of every run |
| `RealRefinement.RealStepOk` | src/mulle-aba.c:848-1071 | one step in memory is one step of the protocol and keeps invariant and coupling |
| `Induction.StepInv` | src/mulle-aba.c:231-593 | every step of every thread keeps the invariant of the protocol |
| `Entries.ZeroMeansLast` | src/mulle-aba-storage.c:1513-1523 | the count of an entry is zero for a thread that owes it exactly when nobody else owes it, and then nothing is left to add |
| `Entries.SubOk` | src/mulle-aba-storage.c:1501-1523 | decrementing keeps all counts and hands the drained entry to the thread that saw zero |
| `Entries.PushOk` | src/mulle-aba.c:1032-1033 | a thread that owes a timestamp finds its list in use when it appends |
| `Entries.CreateOk` | src/mulle-aba.c:701-715 | a new timestamp is owed by every registered thread, with their number still to be added |
| `Simulation.SuffixHolds` | src/mulle-aba-storage.c:1501-1551 | in the invariant: an entry in use keeps every later one in use |
| `Simulation.FinishedHolds` | src/mulle-aba-storage.c:1539-1547 | in the invariant: a finished entry has count -1 and an empty list again |
| `Simulation.SlotSim` | src/mulle-aba-storage.c:1513-1547 | an operation on the slot found through any earlier window is the operation on the entry meant |
| `Coupling.WalkReaches` | src/mulle-aba-storage.c:1503-1509 | a walking thread finds the entry in the window it walks through |
| `Coupling.AppendReaches` | src/mulle-aba.c:967-969 | a thread that adds or appends finds the entry in the world it swapped in or read |
| `Windows.StorageIndex` | src/mulle-aba-storage.c:226-255 | there is an index exactly for the timestamps of the window, and it names the row the timestamp is in |
| `Windows.Injective` | src/mulle-aba-storage.h:151-162 | two timestamps of one window never share an entry |
| `Windows.RotatedStays` | src/mulle-aba-storage.c:213-223 | any number of rotations keep the storage of a timestamp that stays in the window |
| `Windows.RotatedEnters` | src/mulle-aba-storage.c:213-223 | a timestamp that enters by rotating gets the entry of one that has left |
| `Windows.AddExtends` | src/mulle-aba.c:638-639 | adding a storage keeps all entries and brings N new timestamps into the window, all in the new storage |
| `Refinement.IdleMeansDead` | src/mulle-aba-storage.c:1587-1588 | an idle storage up to the row of the timestamp shows that nothing is in use in it or before it, also in a copy of an older world |
| `Refinement.Rotated` | src/mulle-aba-storage.c:1590-1591 | rotating dead storages keeps every entry in use where it is found, and what comes in is untouched |
| `Refinement.Added` | src/mulle-aba.c:614-639 | a fresh storage brings untouched entries and moves none |
| `Planning.EarlyHit` | src/mulle-aba-storage.c:1587-1592 | a hit whose original row is up to the current one shows two more storages to be dead |
| `Planning.NextOk` | src/mulle-aba-storage.c:1576-1593 | the bound on the number of rotations survives every iteration of the reuse loop |
| `Planning.LoopDone` | src/mulle-aba-storage.c:1573-1594 | at the end of the loop there were at most 2f - 1 rotations, all of dead storages, and never of the current one |
| `Planning.RotatedHasRoom` | src/mulle-aba.c:690-698 | after at least one rotation the next timestamp is inside the window, so the size check passes |
| `RealWindows.UnuseSpares` | src/mulle-aba-storage.c:1547 | clearing the bit of a timestamp in use never clears the bit a free has set for the next timestamp in a reorganised copy |
| `RealWindows.SwapMatches` | src/mulle-aba.c:718-845 | whichever way a free makes room, the world it swaps in has every entry in place and a pristine one for the new timestamp |
| `ReuseLoop.CountMeansRoom` | src/mulle-aba-storage.c:1598-1607 | on the same world and bits the counting pass is non-zero exactly when the rotating pass rotates, and then the next timestamp has room |
| `ReuseLoop.CountingAgrees` | src/mulle-aba-storage.c:1576-1593 | until the first rotation both passes test the same storages |
| `ReuseLoop.ReorganiseKeeps` | src/mulle-aba-storage.c:1555-1595 | the whole rotating loop, on any world whose storages hold the entries: the rotated storages are dead and the rotated window still holds all entries |
| `ReuseLoop.CountReusable` | src/mulle-aba-storage.c:1604-1607 | the counting pass counts the idle storages before the current one and changes nothing |
| `ReuseLoop.ReuseStorages` | src/mulle-aba-storage.c:1598-1601 | the rotating pass, in place on the storage array, leaves the window of the specification and its number of rotations |
| `WorldObjects.TimestampStorage.SetUsageBit` | src/mulle-aba-storage.c:1450-1477 | one usage bit is set or cleared, the others stay; the result says whether any is set |
| `WorldObjects.TimestampStorage.CheckEntry` | src/mulle-aba-storage.c:1513-1547 | the count goes down by one; who finds zero takes the list and clears the usage bit, nobody else touches them |
| `WorldObjects.WorldStruct.PopStorage` | src/mulle-aba-storage.c:165-190 | takes off the first storage and moves the window by one row; an empty world is left alone |
| `WorldObjects.WorldStruct.PushStorage` | src/mulle-aba-storage.c:193-210 | puts a storage last, or refuses when the world is full |
| `WorldObjects.WorldStruct.RotateStorage` | src/mulle-aba-storage.c:213-223 | the first storage becomes the last, the window rotates, no storage is lost |
| `WorldObjects.WorldStruct.GetStorageIndex` | src/mulle-aba-storage.c:226-255 | the row of a timestamp in the window, -1 for any other |
| `WorldObjects.WorldStruct.GetEntry` | src/mulle-aba-storage.c:272-292 | an entry for every timestamp of the window but 0, and for no other |
| `WorldObjects.WorldStruct.CopyFrom` | src/mulle-aba-storage.c:295-307 | everything but the size is copied; slots beyond the size of the source stay |
| `Walks.EachOnce` | src/mulle-aba-storage.c:1481-1552 | among other threads: in any part of any run in which a thread is registered throughout, it counts down exactly the timestamps it moves past, each once |
| `Walks.WalkCountsEachOnce` | src/mulle-aba-storage.c:1481-1552 | among other threads: a whole check-in walk counts down each timestamp of its range once, and no other |
| `TimeRange.CheckTimerange` | src/mulle-aba-storage.c:1481-1552 | the same loop in place on the storages, run alone: it leaves what the specification says and gives back every drained list |
| `TimeRange.CheckedRangeIsWalk` | src/mulle-aba-storage.c:1501-1551 | the loop by rows of the window is the loop by addresses of storages |
| `TimeRange.WalkRangeAt` | src/mulle-aba-storage.c:1501-1551 | exactly the timestamps of the range are counted down once; list and usage bit go exactly where the count was zero; every other entry stays |
| `TimeRange.WalkRangeTakes` | src/mulle-aba-storage.c:1543-1550 | what is freed is the sum of the lists of the drained timestamps |
| `TimeRange.WalkOneIsSteps` | src/mulle-aba-storage.c:1513-1547 | one iteration is the decrement, wipe and clear steps of the step machine in a row |
| `WorldSwaps.SizeCheck` | src/mulle-aba.c:680-698 | passes exactly if the next timestamp is before the end of the window |
| `WorldSwaps.IncrementTimestamp` | src/mulle-aba.c:701-715 | the next timestamp, with its usage bit set in the storage the window gives it; no other usage bit of any storage changes, and no slot |
| `WorldSwaps.FinishCopy` | src/mulle-aba.c:736-746 | the size check and the increment at the end of every callback: exactly if the next timestamp is before the end of the window the copy gets it, with that one usage bit; otherwise nothing changes |
| `WorldSwaps.PrepareIncrement` | src/mulle-aba.c:718-747 | succeeds exactly with several threads, a set bit and room; the copy has the next timestamp and the same window; in the storages of the old world just the usage bit of that timestamp is set, and nothing if it fails |
| `WorldSwaps.PrepareAdd` | src/mulle-aba.c:750-804 | succeeds exactly with several threads, a set bit and a free slot; the copy has the next timestamp and one new, empty storage last; of the usage bits just that of the timestamp is set |
| `WorldSwaps.PrepareReorganise` | src/mulle-aba.c:807-845 | succeeds exactly with several threads, a set bit and something to reuse; the copy has the rotated window and the storages it had; of the usage bits just that of the timestamp is set |
| `WorldSwaps.NextWorld` | src/mulle-aba.c:902-957 | the way a free makes room, and that it passes its own checks: the window stays as it is exactly if the next timestamp has room in it; otherwise a storage is added exactly if there is a free slot or no idle storage before the current one; a full world with such a storage keeps its size and its storages, rotated as the reuse loop leaves them; only a full world without one gets one slot more; the new window extends the old one, and of the usage bits just that of the timestamp is set |
| `WorldSwaps.AddThreads` | src/mulle-aba.c:959-969 | the number of threads is added to the count of the slot of the new timestamp; its list, every other slot and every usage bit stay |
| `WorldSwaps.Advance` | src/mulle-aba.c:902-993 | one round of a free: the world chosen as above is swapped in, its timestamp has its usage bit set and the number of threads added to its count, nothing else in any storage changes, and the world swapped out is collected unless it was locked |
| `WorldSwaps.FreeOwnedPointer` | src/mulle-aba.c:848-1071 | a free run alone ends: it frees at once, and changes nothing, exactly if its thread is alone; else it swaps in one new world, chosen as above, if the bit is set and none otherwise; the slot of the timestamp gets the item on its list, and after a swap also the number of threads on its count and the world swapped out on its list unless that was locked; every other slot and usage bit of every storage is what it was, and no storage is lost |
| `Represented.EveryWorldStarts` | src/mulle-aba.c:877-890 | the world of every state of every run meets what such a free asks of the world it starts on |
| `Represented.FreeFromRun` | src/mulle-aba.c:848-1071 | so the free may be run on objects that show any state of any run; nothing else is asked than an unused address for a new storage; and there a new timestamp has a count of exactly one less than the number of threads, and exactly the item and the collected world on its list |
| `Represented.NextIsUntouched` | src/mulle-aba.c:959-965 | whichever way a free chooses to make room, the slot the next timestamp gets holds -1 and an empty list |
| `Retries.CopyChangeWorld` | src/mulle-aba-storage.c:1285-1366 | adding a storage through any number of failed swaps on ever other worlds, with the copy reused or, if the size has changed, discarded: EAGAIN exactly if at most one thread is registered in the world found last, success exactly if there are several, the bit is set and there is a free slot; success gives a world in order with the one new storage last, and just that storage more is allocated; failure leaves the allocated storages as they were; no usage bit is cleared |
| `Retries.GrowWorld` | src/mulle-aba-storage.c:1370-1447 | the same for growing, where one copy serves for all attempts: EBUSY for a world that has the size already; else EAGAIN exactly if at most one thread is registered and success exactly if there are several and the bit is set |
| `Retries.AddStorageCallback` | src/mulle-aba.c:750-804 | the callback in its modify and reuse modes: EAGAIN exactly if at most one thread is registered, 0 exactly if there are several, the bit is set and the copy has a free slot, EBUSY otherwise; with 0 the copy gets the storage and the next timestamp, whose usage bit is the only one that changes; a storage carried along from a failed attempt is given back once, and never while it is in use |
| `Retries.Place` | src/mulle-aba.c:618-639 | a copy in which the slot behind the last storage is null or holds the new storage becomes a sane world with that storage last |

## Left out

- Memory ordering weaker than sequential consistency: every step of the machine is atomic and seen by
  all threads at once.
- Internals of the atomics, the thread-local storage, the linked list and the allocator, which are not
  in this repository: decrement returns the previous value as `atomic_fetch_sub` does (section 7.17.7.5
  of ISO/IEC 9899:2011), add and take-all on lists are atomic, and lists are sets or multisets without
  order.
- Failing allocations and the leaks the source admits for them (src/mulle-aba-storage.c:1215,
  src/mulle-aba-storage.c:1232, src/mulle-aba.c:1020).
- Wrap-around of timestamps (src/mulle-aba.c:258-260, src/mulle-aba.c:708-709): timestamps are
  unbounded.
- The pools of unused worlds and list entries: they are part of the allocator. A new world gets an
  address that is not in use; reuse of an address after it was given back is allowed.
- Reading the world pointer and reading the world behind it are one step; `Safety.NoAba` is what makes
  the difference invisible to a registered thread.
- Spinning on the lock, and the retries inside setting a usage bit, are one step each; so is the whole
  cleanup of the last thread after its swap.
- LeftAlone.UnregisterFinishesAlone: starts at the call; a thread that is left alone in the middle of an
  unregister, with a world it has read before others changed it, is not followed to its end.
- A free may make other plans in the step machine than in the source (read again at any time, add a
  storage although the next timestamp has room, grow a world that is not full). The source's own choice
  is in `MakingRoom.FreeChoice` and `WorldSwaps.NextWorld`; after a failed swap it is made anew, while the
  source first tries the same way again. The usage bits in a fresh storage are arbitrary, since failed attempts
  may have set some.
- Callbacks that call `free` themselves: a callback is one step.
- Registering a thread that is registered already, which the source does not guard against.
- The branch that frees collected worlds when a free finds itself alone (src/mulle-aba.c:1008-1016) is
  not a step: no world has been collected by then.
- The description of the mechanism in asset/dox/api/toc/index.md:15-19 does not match the code; the code
  is followed.
- Global wrappers, initialisation and teardown glue, printing, tracing, statistics.
- WorldSwaps.FreeOwnedPointer: runs alone and reads the objects as they are; frees with interference are
  in the step machine.
- Retries.CopyChangeWorld: the worlds found by the retries are arguments; of the three ways a free changes
  a copy it is the one that allocates, adding a storage.
- Retries.GrowWorld: that the worlds found only get longer is required of them;
  `WindowHistory.WindowsGrow` proves that of the worlds a registered thread finds.
- TimeRange.CheckTimerange: runs alone, and needs every timestamp of the range to be in the window;
  `Accounting.OwedIsAddressable` proves that of every run, and `Walks.WalkCountsEachOnce` is the loop
  among other threads.
- Transitions.EveryEdgeInTable: is about successful swaps; `Attempts.EveryAttemptAllowed` covers those that
  fail. Unlocking from 3 to 1 and from 11 to 9 passes the table, but can only fail.
