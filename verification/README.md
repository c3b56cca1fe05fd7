# Verified models of the OS lab programs

This project models the concurrent parts of four lab programs and proves what they promise, or exactly where they
stop keeping the promise.

- **Parallel external sort** (`Lab6/sort_index.c`). `Records`, `Slices`, `TwoWayMerge`, `MergeRounds`, `PartSorter`,
  `PartTermination`, `PartRuns`, `PartsMerge` and `SortIndexMain`. The array code (`merge`, the merge rounds, the scan of
  `block_map`, `merge_parts`) is written as methods with loops and proved against sequence functions. The threads of
  one part form a state machine in which every interleaving is a run: claiming, qsort, marking, the barriers, and in
  the merge rounds one step per record moved by `merge` or `memcpy`. A part need not be divisible by the block count;
  the remainder is carried along.
- **Three bounded queues** (`Lab5/parent1.c`, `Lab5/parent2.c`, `Lab4/parent.c`). `Messages`, `Rings`, `Tally`,
  `SemaphoreQueue`, `ConditionQueue`, `ConditionQueueLimit` and `ProcessQueue`, with `SemaphoreProgress`,
  `ConditionProgress`, `SemaphoreHistory`, `ConditionHistory` and `ProcessHistory`. `Rings` holds the shared ring,
  once as a value and once as a class whose methods are the two critical sections; the other modules are state
  machines of any number of threads or processes around it, and each is shown to refine the same abstract first-in
  first-out queue.
- **Optimistic record update** (`Lab7/main.c`). `RecordEditor`, `EditorHistory` and `EditorProgress`: a class for the
  file, and a state machine of any number of processes with record locks under either of two rules for how long a
  lock lasts.

The Progress modules say what can still happen from any reachable state, the History modules what the commands and
actions of a run say about its states.

What a reader may not expect:

- `main` of the sort accepts only block counts of at least four times the thread count (Lab6/sort_index.c:186), but in
  a round each thread merges only the pair with its own number (Lab6/sort_index.c:98-104). Parts of more than one
  record are always sorted only if they consist of whole blocks and there are at least half as many threads as blocks
  (`PartAlwaysSortedIff`). So for every accepted command line there is a file that no interleaving leaves sorted, unless
  a part is a single record, which takes a page of at most 16 bytes (`AcceptedCanFail`). Which files are sorted is
  stated exactly (`MainSortsIff`). Nothing is ever lost (`MainConserves`). All of these speak of complete runs of the
  threads, and every run can be completed (`PartRuns.Complete`).
- The condition-variable queue tests for a full ring modulo the ring size (Lab5/parent2.c:62), and '+' lets the
  capacity reach the ring size (Lab5/parent2.c:177). At that capacity a producer overwrites unread messages. Every
  smaller limit on the capacity is safe (`SafeLimits`), and below it a message can always still be produced or consumed
  (`AlwaysGoesOn`).
- In the semaphore queue '-' waits for a free slot in the command loop itself (Lab5/parent1.c:186). If there is none
  and no consumer lives, it never returns, and no command can create a consumer any more (`MinusHangsIff`). That, with
  the queue full to its capacity, is also the only way in which the queue stops for good (`FrozenIff`).
- In the multi-process queue a process that fails at or after the mutex wait keeps its token for ever
  (Lab4/parent.c:120-122). Order and bounds survive, every such failure costs exactly one token (`LeaksCounted`), and
  the queue has stopped for good if and only if all ten tokens or the mutex are gone (`StoppedIff`).
- `get_record` and `put_record` close a descriptor of the file while the record lock is held (Lab7/main.c:96, 110).
  Under the fcntl() page of POSIX.1-2017 that drops the lock. No update is ever lost if and only if the lock lasts
  until `unlock_record` (`NoLostUpdateIff`). If it does not, an update is still safe as long as nobody commits between
  the second read and the write (`UndisturbedReplaces`).

Where the steps of the state machines come from: `PartSorter.Apply` from Lab6/sort_index.c:60-110, with one step for
everything between lock and unlock of the mutex; `SemaphoreQueue.Apply` from Lab5/parent1.c:58-93 and 118-215;
`ConditionQueue.Apply` from Lab5/parent2.c:57-96 and 119-216; `ProcessQueue.Apply` from Lab4/parent.c:110-192 and
247-343; `RecordEditor.Apply` from Lab7/main.c:85-181. The reads and writes of records in `RecordEditor` are those that
`DataFile.GetRecord` and `DataFile.PutRecord` are proved to make.

## Model

| member | source | states |
|---|---|---|
| Records.SortedStableUnique | Lab6/sort_index.c:21-27 | two sorted sequences with the same order among equal time marks are equal, so "sorted and stable" fixes a result |
| TwoWayMerge.Merge | Lab6/sort_index.c:29-40 | the three loops write the merge of the two ranges into exactly a_len + b_len slots and nothing else |
| TwoWayMerge.MergePermutation | Lab6/sort_index.c:29-40 | the merge of any two ranges is a permutation of both |
| TwoWayMerge.MergeSortedIff | Lab6/sort_index.c:29-40 | the merge is sorted if and only if both ranges are |
| TwoWayMerge.MergeStable | Lab6/sort_index.c:32 | with a sorted left range, records with equal time marks come out left range first, each range in its order |
| MergeRounds.RunRounds | Lab6/sort_index.c:95-108 | the rounds as array code, merges one after another, leave the buffer that the round function gives |
| MergeRounds.RunOneRound | Lab6/sort_index.c:98-104 | one round merges the first min(threads, pairs) pairs in place |
| MergeRounds.MergeOnePair | Lab6/sort_index.c:99-103 | one thread's merge into the scratch buffer and copy back advances the round by its pair |
| MergeRounds.CopyBack | Lab6/sort_index.c:103 | the copy overwrites the pair's range and nothing else |
| MergeRounds.RoundUnique | Lab6/sort_index.c:97-108 | a buffer that has every pair merged and the rest unchanged is the round's result, so the order of the merges cannot matter |
| MergeRounds.RoundsConserve | Lab6/sort_index.c:95-108 | for any thread count the rounds permute the part and leave the remainder behind the last block alone |
| MergeRounds.SortedPrefix | Lab6/sort_index.c:95-108 | for any thread count, after round r the first S_r blocks of that round are sorted, S_0 the block count and S_r = min(threads, S_(r-1) / 2) |
| MergeRounds.SortedCountIs | Lab6/sort_index.c:95-108 | S_(r+1) is min(threads, blocks / 2) divided by 2^r and rounded down |
| MergeRounds.RoundsSortIff | Lab6/sort_index.c:95-108 | the rounds sort the blocks if and only if all blocks are sorted and every block boundary that no thread's merge spans is in order beforehand |
| MergeRounds.AlwaysSortsIff | Lab6/sort_index.c:95-108 | the rounds sort every input of sorted blocks if and only if there are at least half as many threads as blocks |
| PartSorter.ClaimFree | Lab6/sort_index.c:76-83 | the scan returns the first block with entry 0 and sets it to 1, or -1 with the map unchanged |
| PartSorter.InitInv | Lab6/sort_index.c:250-253 | the initial map and thread positions satisfy the invariant |
| PartSorter.StepKeepsInv | Lab6/sort_index.c:60-110 | every step of every thread keeps the invariant: owners, sort counts, blocks as permutations of their input, and per pair how far merge and copy have got |
| PartSorter.Reachable | Lab6/sort_index.c:60-110 | every state of every interleaving has the invariant |
| PartSorter.StepMovesForward | Lab6/sort_index.c:67-93 | a map entry changes only 0 to 1 or 1 to 2, a block's owner only when it is claimed, and a block is sorted only by its owner and only once |
| PartSorter.MapMovesForward | Lab6/sort_index.c:67-93 | over any stretch of a run map entries and sort counts never go down, and no block is sorted twice |
| PartSorter.ClaimPhaseResult | Lab6/sort_index.c:67-93 | when all threads have left the claim loop every entry is 2, every block was sorted exactly once, and each block is a sorted permutation of what it held |
| PartSorter.RangesDisjoint | Lab6/sort_index.c:100-103 | the ranges of two threads in one round do not overlap |
| PartSorter.MergeMoveEffect | Lab6/sort_index.c:102 | a step of merge changes only its thread's own range of the scratch buffer and keeps the record of what is merged |
| PartSorter.CopyMoveEffect | Lab6/sort_index.c:103 | a step of memcpy changes only its thread's own range of the buffer and keeps the record of what is copied |
| PartSorter.RoundEnds | Lab6/sort_index.c:97-107 | when the last thread reaches the barrier the buffer is the one after one more complete round |
| PartSorter.RoundPositions | Lab6/sort_index.c:86-108 | after barrier 0 every thread is within one barrier of the others, and returns only after the last round |
| PartSorter.Finished | Lab6/sort_index.c:60-110 | in every interleaving, when all threads have returned the part is the result of running all merges one by one on blocks that qsort sorted |
| PartSorter.OutcomeConserves | Lab6/sort_index.c:60-110 | for any thread and block count a finished part is a permutation of what it held, the remainder behind the last block untouched |
| PartSorter.OutcomeSortedIff | Lab6/sort_index.c:60-110 | exactly when a finished part is sorted, in terms of the part as it was before, whatever qsort does with equal time marks |
| PartSorter.SomeSort | Lab6/sort_index.c:68 | qsort's contract can be met on any block |
| PartRuns.Complete | Lab6/sort_index.c:60-110 | every run, whatever the threads have done so far, can be continued until all threads have returned |
| PartRuns.MayLeaveIff | Lab6/sort_index.c:60-110 | complete runs leave in a part exactly the buffers that sorting each block in some way and running the merges one by one can give |
| PartRuns.SomeRun | Lab6/sort_index.c:60-110 | every part has a complete run, for any thread and block count |
| PartSorter.Progress | Lab6/sort_index.c:60-110 | no deadlock: until all threads have returned some thread can step |
| PartTermination.StepUsesWork | Lab6/sort_index.c:60-110 | every step except one inside qsort uses up work |
| PartTermination.RunsAreBounded | Lab6/sort_index.c:60-110 | every interleaving has at most a number of steps fixed at the start, qsort's own steps aside |
| PartsMerge.MergeParts | Lab6/sort_index.c:112-164 | for any file of whole parts: the header counts all records, the output is the k-way merge of the parts, every record offset is read exactly once and reads stay inside the file |
| PartsMerge.StartStates | Lab6/sort_index.c:128-136 | each state starts with its part's first record read and the position behind it |
| PartsMerge.FindMin | Lab6/sort_index.c:139-146 | the scan finds the part the specification takes from, or -1 when all are used up |
| PartsMerge.Best | Lab6/sort_index.c:139-146 | the part found has a head no later than any other's and strictly earlier than those of the parts before it; -1 exactly when all parts are empty |
| PartsMerge.AfterWriteOk | Lab6/sort_index.c:148-155 | after a write the part's position is still right and never passes the end, or the part is used up |
| PartsMerge.EachOffsetOnce | Lab6/sort_index.c:129-153 | the offsets of a run of records name each of them exactly once and nothing else |
| PartsMerge.ReadOneMore | Lab6/sort_index.c:149-152 | reading on in one part adds exactly the offset of its next record to the offsets read |
| PartsMerge.KMergePermutation | Lab6/sort_index.c:138-156 | the merge of any parts is a permutation of all their records |
| PartsMerge.KMergeSortedIff | Lab6/sort_index.c:138-156 | the merged file is sorted if and only if every part is |
| PartsMerge.KMergeStable | Lab6/sort_index.c:142 | with sorted parts, equal time marks keep the order of the parts and the order within each part |
| SortIndexMain.BitTestIsPowerOfTwo | Lab6/sort_index.c:182 | for positive numbers the test with & accepts exactly the powers of two |
| SortIndexMain.AcceptedIff | Lab6/sort_index.c:177-220 | exactly which numeric arguments and record counts pass all checks; block count 0 never does |
| SortIndexMain.FirstRefusal | Lab6/sort_index.c:177-220 | which refusal is reported: the first in the order of the checks, each in terms of what the argument is |
| SortIndexMain.MappingMatchesMerge | Lab6/sort_index.c:225-237 | a mapping starts on a page, its records start and end at the byte offsets that merge_parts walks for the same part |
| SortIndexMain.PartsTileFile | Lab6/sort_index.c:129-131 | every byte behind the header lies in exactly one part |
| SortIndexMain.RunsMakeFile | Lab6/sort_index.c:224-286 | one complete run for each part, under any settings with that part, the given block count and the given thread count, makes a file that the program may leave behind |
| SortIndexMain.FileOutcomeIff | Lab6/sort_index.c:224-286 | the files the program may leave behind are exactly the merges of what complete runs with the given block and thread counts leave of the parts |
| SortIndexMain.FileOutcomeExists | Lab6/sort_index.c:224-286 | for every file of whole parts there are complete runs of all parts, and so a file that the program may leave behind |
| SortIndexMain.MainConserves | Lab6/sort_index.c:224-286 | whatever complete runs the threads make, the output file is a permutation of the input file |
| SortIndexMain.MainSortsIff | Lab6/sort_index.c:224-286 | after complete runs of all parts the output file is sorted if and only if in every part, as it was before, each block boundary that no merge spans is in order and the remainder behind the last block is sorted and comes last |
| SortIndexMain.PartAlwaysSortedIff | Lab6/sort_index.c:60-110 | for every part length: all complete runs leave all parts of that length sorted if and only if the length is at most 1, or a multiple of the block count and blocks <= 2 * threads |
| SortIndexMain.AcceptedCanFail | Lab6/sort_index.c:177-286 | for every accepted command line: some file of one part is left unsorted by all complete runs if and only if a part has more than one record |
| Messages.ComputeHash | Lab5/parent1.c:32-42 | with every addition cut to 16 bits the result is still the plain sum of type, size and data |
| Messages.HashCounts | Lab5/parent1.c:36-40 | the sum changes by the difference when the type or a data byte in front of size is changed, and not at all for a byte at or behind it |
| Messages.HashFits | Lab5/parent1.c:32-42 | the sum of any message fits 16 bits |
| Messages.HashBoundIsTight | Lab5/parent1.c:32-42 | some message reaches 65535, so the bound has nothing to spare |
| Messages.VerifyHash | Lab5/parent1.c:44-46 | true exactly for messages whose stored hash is their sum |
| Messages.FillMessage | Lab5/parent1.c:48-56 | whatever the random bytes are, the message left behind verifies |
| Rings.SharedQueue.constructor | Lab5/parent1.c:19-22 | the ring starts empty |
| Rings.SharedQueue.Produce | Lab5/parent1.c:64-67 | with a free slot: the queue gains one verifying message at its end, nothing else in it changes, the counter goes up by one |
| Rings.SharedQueue.Consume | Lab5/parent1.c:81-84 | with an unread message: the oldest one is returned and leaves the queue, the counter goes up by one |
| Rings.SharedQueue.Used | Lab5/parent1.c:197 | the status value is the number of messages, and 0 for a full ring |
| Rings.TailSlotIsFree | Lab5/parent1.c:64 | with a free slot the slot a producer fills holds no unread message |
| Rings.HeadIsOldest | Lab5/parent1.c:81 | with an unread message the slot a consumer reads holds the oldest one |
| Rings.FillKeeps | Lab5/parent1.c:64 | filling the free slot keeps the ring invariant |
| Rings.AdvanceKeeps | Lab5/parent1.c:65-66 | moving tail keeps the ring invariant and adds one to the occupancy |
| Rings.TakeKeeps | Lab5/parent1.c:82-83 | moving head keeps the ring invariant and takes one from the occupancy |
| Rings.AdvanceEnqueues | Lab5/parent1.c:65-66 | moving tail appends one message to the abstract queue |
| Rings.TakeDequeues | Lab5/parent1.c:82-83 | moving head removes the first message of the abstract queue |
| Rings.StatusFormulasAgree | Lab4/parent.c:323 | the status formulas of the two labs agree for all indices in range |
| Rings.StatusValue | Lab5/parent1.c:197 | on a consistent ring the formula gives produced minus consumed, except 0 when the ring is completely full |
| SemaphoreQueue.StepKeepsInv | Lab5/parent1.c:58-194 | every thread step, cancellation and command step keeps the token, mutex and ring invariants |
| SemaphoreQueue.Reachable | Lab5/parent1.c:58-194 | every state of every run has the invariant |
| SemaphoreQueue.TokenConservation | Lab5/parent1.c:62-86 | free + full + held tokens = capacity, corrected by 1 for a half-done resize; the occupancy never exceeds that nor the ring size |
| SemaphoreQueue.FirstInFirstOut | Lab5/parent1.c:58-93 | consumed is a prefix of produced, head and tail are the counts modulo the ring size, every consumed message verifies |
| SemaphoreQueue.SlotsAreSafe | Lab5/parent1.c:64-81 | no producer overwrites an unread slot, and a consumer copies the oldest unread message, which verifies |
| SemaphoreQueue.RefinesFifo | Lab5/parent1.c:58-194 | every step is a step of a first-in first-out queue bounded by the corrected capacity |
| SemaphoreQueue.CancellationIsHarmless | Lab5/parent1.c:147-172 | a thread holds no token exactly at its cancellation points, never the mutex there, and its death changes no token, mutex or ring |
| SemaphoreQueue.MutualExclusion | Lab5/parent1.c:63-68 | at most one thread or the command loop is between lock and unlock |
| SemaphoreQueue.StatusIsRight | Lab5/parent1.c:195-208 | in every run the status command shows produced minus consumed, or 0 for a full ring |
| SemaphoreQueue.NoDeadlock | Lab5/parent1.c:58-194 | with a live producer and a live consumer some thread, or the command loop in its critical section, can take a step |
| SemaphoreProgress.MinusHangsIff | Lab5/parent1.c:184-194 | a '-' that waits never returns if and only if there is no free slot and no consumer lives |
| SemaphoreProgress.HungForever | Lab5/parent1.c:184-194 | that state is kept by every step |
| SemaphoreProgress.FrozenIff | Lab5/parent1.c:58-194 | in every reachable state: no continuation produces or consumes a message if and only if a '-' waits, no consumer lives and the queue is full to its capacity |
| SemaphoreHistory.CapacityFollowsCommands | Lab5/parent1.c:173-194 | at the prompt the capacity is 10, plus one for each '+' below 1000 and less one for each '-' above 1, in the order given |
| SemaphoreHistory.LoopFollowsCommands | Lab5/parent1.c:116-215 | the command loop is always at a place of the last command given; it waits for a free slot only for a '-', and for a thread only for the one cancelled |
| SemaphoreHistory.CountsUnderMutex | Lab5/parent1.c:127-208 | each command that counts a thread or shows the status takes the mutex once, before the next command |
| SemaphoreHistory.FatesExplained | Lab5/parent1.c:122-172 | the threads are those created, in order; a live one is of the kind it was created as, and a thread ends only if it was cancelled |
| SemaphoreHistory.TurnsAreReported | Lab5/parent1.c:60-93 | a thread reports each message it produces or consumes once, before it takes the next |
| SemaphoreHistory.CheckedMessageVerifies | Lab5/parent1.c:87 | the message a consumer checks is one that was consumed, and its hash is right |
| ConditionQueue.UsedIsOccupancy | Lab5/parent2.c:62 | what the wait loops compute is the occupancy, except 0 for a completely full ring |
| ConditionQueue.StepKeepsInv | Lab5/parent2.c:57-194 | below capacity FIXED_SIZE every step, spurious wakeups and barging included, keeps the ring, mutex and wakeup invariants |
| ConditionQueue.Reachable | Lab5/parent2.c:57-194 | every state of every run whose capacity has stayed below FIXED_SIZE has the invariant |
| ConditionQueue.NoLostWakeup | Lab5/parent2.c:61-89 | with the mutex free: if a consumer sleeps there are at most as many messages as woken consumers, if a producer sleeps at most as many free slots as woken producers |
| ConditionQueue.NoDeadlock | Lab5/parent2.c:57-96 | with a producer and a consumer something can move without a spurious wakeup |
| ConditionProgress.AlwaysGoesOn | Lab5/parent2.c:57-194 | from every state of a run whose capacity has stayed below FIXED_SIZE some continuation without spurious wakeups produces or consumes a message |
| ConditionHistory.CapacityFollowsCommands | Lab5/parent2.c:175-195 | at the prompt the capacity is 10, plus one for each '+' below 1000 and less one for each '-' above 1, in the order given |
| ConditionHistory.LoopFollowsCommands | Lab5/parent2.c:119-216 | the command loop is always at a place of the last command given |
| ConditionHistory.CountsUnderMutex | Lab5/parent2.c:129-208 | each command that counts a thread or shows the status takes the mutex once, before the next command |
| ConditionHistory.KindsStay | Lab5/parent2.c:125-148 | the threads are those created, in order, and each stays of the kind it was created as |
| ConditionHistory.SleepersAreWoken | Lab5/parent2.c:62-83 | a thread leaves its sleep only woken, is woken only out of its sleep, and a spurious wakeup wakes it |
| ConditionHistory.TurnsAreReported | Lab5/parent2.c:60-95 | a thread reports each message it produces or consumes once, before it takes the next |
| ConditionHistory.CheckedMessageVerifies | Lab5/parent2.c:90 | the message a consumer checks is one that was consumed, and its hash is right |
| ConditionQueue.SomeoneAwake | Lab5/parent2.c:61-89 | producers and consumers are never all asleep while the mutex is free |
| ConditionQueue.FirstInFirstOut | Lab5/parent2.c:57-96 | consumed is a prefix of produced, the computed occupancy is produced minus consumed and below the ring size, every consumed message verifies |
| ConditionQueue.SlotsAreSafe | Lab5/parent2.c:65-84 | no producer overwrites an unread slot, and a consumer copies the oldest unread message, which verifies |
| ConditionQueue.MutualExclusion | Lab5/parent2.c:61-70 | at any capacity at most one thread or the command loop is between lock and unlock, waits excepted |
| ConditionQueue.OnlyFillsToCapacity | Lab5/parent2.c:62-66 | a step that adds a message ends within the current capacity; at or above it no step adds one |
| ConditionQueue.OverfullShrinks | Lab5/parent2.c:186-194 | while the queue stays at or above its capacity, as after '-', its occupancy never grows |
| ConditionQueue.RefinesFifo | Lab5/parent2.c:57-194 | every step is a step of a first-in first-out queue bounded by the current capacity |
| ConditionQueueLimit.FullTestExact | Lab5/parent2.c:62 | the full test is right for every capacity if and only if the ring is not completely full |
| ConditionQueueLimit.CapacityBounded | Lab5/parent2.c:175-194 | in every run the capacity is between 1 and FIXED_SIZE, both included |
| ConditionQueueLimit.Overfills | Lab5/parent2.c:61-177 | with capacity FIXED_SIZE allowed some run has more unread messages than slots |
| ConditionQueueLimit.SafeLimits | Lab5/parent2.c:62-177 | the ring invariant holds in all runs whose capacity stays within a limit if and only if the limit is below FIXED_SIZE |
| ProcessQueue.InitInv | Lab4/parent.c:202-232 | the initial semaphore values and shared memory satisfy the invariant |
| ProcessQueue.StepKeepsInv | Lab4/parent.c:110-192 | every step, failed or interrupted semaphore operation and signal keeps the token and ring invariants |
| ProcessQueue.Reachable | Lab4/parent.c:110-192 | every state of every run has the invariant |
| ProcessQueue.TokenConservation | Lab4/parent.c:115-179 | free + full + held + leaked = 10, mutex + holders + leaked mutex = 1, and the occupancy lies between the leaked messages and 10 less the leaked slots |
| ProcessQueue.FirstInFirstOut | Lab4/parent.c:110-192 | failures and interrupts included: consumed is a prefix of produced, at most 10 apart, and every consumed message verifies |
| ProcessQueue.SlotsAreSafe | Lab4/parent.c:124-168 | no producer overwrites an unread slot, and a consumer copies the oldest unread message, which verifies |
| ProcessQueue.MutualExclusion | Lab4/parent.c:120-136 | at most one process has taken the mutex and not given it back, dead ones included |
| ProcessQueue.RefinesFifo | Lab4/parent.c:110-192 | every step is a step of a first-in first-out queue bounded by 10 less the leaked slots |
| ProcessQueue.StatusIsRight | Lab4/parent.c:319-331 | on a consistent snapshot the status shows produced minus consumed, or 0 for a full ring |
| ProcessQueue.LeaksCounted | Lab4/parent.c:115-179 | leaked tokens = failures after the first wait; interrupted first waits and ordinary ends leak none |
| ProcessQueue.StoppedForever | Lab4/parent.c:115-179 | once all tokens or the mutex have leaked, no message is ever produced or consumed again |
| ProcessQueue.StoppedIff | Lab4/parent.c:110-192 | in every reachable state: no continuation produces or consumes a message if and only if all tokens or the mutex have leaked |
| ProcessQueue.NoDeadlock | Lab4/parent.c:110-192 | until then, with a live producer and a live consumer some process can take its next step |
| ProcessHistory.FatesExplained | Lab4/parent.c:105-192 | the processes are those spawned, in order; a live one is of its kind; its flag is set exactly if it was sent a signal; it ends only after a signal or a failure other than an interrupted first wait, and always after such a failure |
| ProcessHistory.KilledAreGone | Lab4/parent.c:291-318 | a process that a command has killed is dead when the command loop goes on |
| ProcessHistory.EveryProcessGoesOn | Lab4/parent.c:110-192 | a live process that was sent no signal can itself, undisturbed, produce or consume another message if and only if the queue has not stopped for good |
| ProcessHistory.TurnsAreReported | Lab4/parent.c:113-189 | a live process reports each message it produces or consumes once, before it takes the next |
| ProcessHistory.CheckedMessageVerifies | Lab4/parent.c:181 | the message a consumer checks is one that was consumed, and its hash is right |
| RecordEditor.DataFile.GetRecordCount | Lab7/main.c:57-64 | the number of whole records of the file |
| RecordEditor.DataFile.GetRecord | Lab7/main.c:85-97 | the bytes of the record with that number |
| RecordEditor.DataFile.PutRecord | Lab7/main.c:99-111 | exactly that record is replaced; every other record, the tail and the length of the file stay |
| RecordEditor.RecordsJoin | Lab7/main.c:92-106 | the records, joined in order of their numbers, are the file up to a tail shorter than a record |
| RecordEditor.Frame | Lab7/main.c:141-181 | a step changes at most the record being edited, only when it commits, and no other process's state or locks |
| RecordEditor.FileIsLog | Lab7/main.c:165-177 | under either lock rule the file is what the commits made of it, and no commit writes back the value it started from |
| RecordEditor.RetryIsPaidFor | Lab7/main.c:165-174 | under either lock rule each jump back to Again has a commit of another process to that record between the two reads |
| RecordEditor.RetriesBounded | Lab7/main.c:149-174 | under either lock rule a process's retries on a record never exceed the other processes' commits to it |
| EditorHistory.EditorsWorkOn | Lab7/main.c:141-181 | in every state each busy process works on the record it was last told to modify, has in hand what it last showed, and carries what its user last made of it |
| EditorHistory.RetryStaysOnRecord | Lab7/main.c:169-174 | a jump back to Again does not end the modification, and what follows stays with the same record |
| EditorHistory.CommitsAreWhatWasAsked | Lab7/main.c:150-177 | every commit is to the record last chosen, from the value last shown, of the value last entered |
| EditorHistory.EndsAndDescriptors | Lab7/main.c:143-180 | a process has ended exactly if it was ended, and a live one has closed the file of every modification but the one it is at |
| RecordEditor.NoLostUpdate | Lab7/main.c:149-179 | with locks held until unlock_record, every write replaces exactly the value its editor first read |
| RecordEditor.ReachableHeld | Lab7/main.c:149-179 | with locks held until unlock_record, in every state a lock has exactly one holder and the commits to each record form one chain |
| RecordEditor.HolderCanMove | Lab7/main.c:113-125 | with locks held until unlock_record, a process that waits for a lock waits for one that can step |
| EditorProgress.LocksAreGivenUp | Lab7/main.c:166-180 | with locks held until unlock_record, the holder of any lock can on its own come back to the menu, and then the lock is free |
| EditorProgress.EditorsCanSave | Lab7/main.c:149-178 | with locks held until unlock_record, every editor, also one in conflict, can still commit to its record once the holder of the lock has come home |
| RecordEditor.UndisturbedReplaces | Lab7/main.c:165-177 | under either lock rule a commit started from what its second read returned, and replaces exactly that if nobody committed to the record between that read and the write |
| RecordEditor.UndisturbedChains | Lab7/main.c:165-177 | under either lock rule a run without such commits in between loses no update of the record |
| EditorHistory.NoLockAtWrite | Lab7/main.c:166-176 | if closing drops locks: a lock lasts from taking it to the end of the second read, and no process holds one when it writes |
| RecordEditor.LostUpdate | Lab7/main.c:166-177 | if closing drops locks: for any file, record and two edits there is a run in which both commit from the same value and the first edit is lost |
| RecordEditor.NoLostUpdateIff | Lab7/main.c:149-179 | in all runs from all files the commits to every record form one chain if and only if locks are held until unlock_record |

## Left out

- The system and libc: mmap, lseek, read, write, rename, fork, semget, shmat, pthread internals. A file is a sequence of records (or bytes), shared memory a ring, a semaphore, mutex or barrier abstract state. Failing or short file operations are not modelled.
- qsort: a contract only (a sorted permutation, in any order among equal keys), with arbitrary rearrangements of its block while it runs.
- Floating point: time marks are real numbers, so NaN has no counterpart.
- Machine integers: sizes, offsets, record and message counters are unbounded; only the 16-bit checksum is cut. Memory size 0, at which the last argument check divides by zero, and parsing of arguments are left out.
- ConditionQueue.NoLostWakeup: stated for states in which the mutex is free. Between adding a message (or a slot) and the signal for it the holder itself owes the wakeup; the form for all states, which counts what holders owe, is the part ConsumersAwake and ProducersAwake of the invariant that Reachable proves.
- Granularity: a step of a thread is one record moved, one semaphore or lock operation, or the assignments between two such points under the mutex. Memory reordering is not modelled. In RecordEditor reading a record and writing a record are one step each, although the first read holds no lock; this is what section 2.9.7 of the System Interfaces volume of POSIX.1-2017 requires of read() and write() on regular files, and RetryIsPaidFor and the commit results rest on it.
- In place update by threads: the state machines are on values. The same array and ring code is proved as methods (Merge, RunRounds, ClaimFree, MergeParts, SharedQueue, DataFile), whose contracts the steps share.
- Limits of 100 threads per kind in Lab5: the machines allow any number, so what holds in all their runs holds for the programs; the continuations that SemaphoreProgress and ConditionProgress promise respect the limit. Lab4 does not check its arrays of 100 processes; writing past them is not modelled, and a continuation that StoppedIff promises may spawn one process.
- Lab4/parent.c:293-318, waitpid: the command loop waits for a process to end, and spawns none meanwhile. A signal that arrives between the loop test and the wait of a process leaves it waiting; a continuation may contain a further interruption. A child killed before it has installed its handlers is left out.
- Cancellation in Lab5/parent2.c:147-172: pthread_cond_wait is a cancellation point that ends the thread while it owns the mutex, and there is no cleanup handler, so the results on the condition-variable queue are for runs without 'P' and 'C'.
- Order of commands 'P' and 'C': any thread may be the one cancelled, not only the newest.
- Fairness: the progress results say that something can still happen, not that a fair scheduler makes it happen, and there are no starvation bounds.
- Unlocked reads: the producer's printf (Lab4/parent.c:142-145) and the status of Lab4/parent.c:321-322, taken as a consistent snapshot.
- EDEADLK and other failures of fcntl, error exits and signals in Lab7 are one action that ends the process; I/O failures in get_record and put_record, and init_file, are left out. User edits are arbitrary records.
- Random data, printing, sleep and the menus. Shutdown code after the command loops.
- Lab1, Lab2, Lab3, Lab8, Lab6/gen.c and Lab6/view.c: they would only add easy members.
