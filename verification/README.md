# Verified models of librtipc's IPC protocols

librtipc is a set of shared-memory IPC objects: queues, a sensor buffer, a barrier, and an allocator for the
shared segments they live in. This project models their protocols in Dafny and proves what they promise in every
interleaving of any number of processes.

## How the objects are modelled

Each protocol has a transition system. A process has a program counter and local variables; one step makes at most
one access to memory that another process writes: one read, one store, one compare-and-swap or one fetch-and-add.
A schedule says who moves next, and all theorems range over all schedules. State that is called auxiliary in the
comments is never read by a step.

| object | transition system | its theorems | code on arrays and fields |
|---|---|---|---|
| multi-producer multi-consumer queue (`src/mpmcq.c`) | `Mpmcq` | `MpmcqResults`, `MpmcqConservation`, `MpmcqSweeps`, `MpmcqSteps` | `MpmcqCode`, `Pool` |
| multi-producer single-consumer queue (`src/lfmpscq.c`) | `Lfmpscq` | `LfmpscqResults`, `LfmpscqDelivery`, `LfmpscqCalls`, `LfmpscqProgress` | `LfmpscqCode`, `Pool` |
| table of rings (`src/wfmpscq.c`) | `Wfmpscq` | `WfmpscqResults`, `WfmpscqCalls`, `WfmpscqLimit` | `WfmpscqCode`, `Ring` |
| sensor buffer (`src/sensorbuffer.c`) | `Sensorbuffer` | `SensorbufferResults`, `SensorbufferRegress` | `SensorbufferCode` |
| barrier (`src/barrier.c`) | `Barrier` | `Barrier` | |
| ring (`src/spscq.c`) | `Spscq` | `Spscq` | `SpscqCode`, `Ring` |
| segment allocator (`system/linux/src/shmman.c`) | | `Shmman`, `Layout` | `Shmman` |

The last column holds classes whose methods are the functions of the source with their loops, for calls that do not
overlap; the transition systems hold what happens when calls do overlap.

The main results, hardest first:

* The queue of `mpmcq.c` is linearizable. Its reclaimer reads the published indexes one at a time while others change
  them; the proof rests on one fact (`MpmcqSafety.ScanAhead`): a validated index that names the slot under scan has
  not been read yet. Enqueue has no second check of tail after it reads next, as the algorithm it follows has; the
  proof shows that none is needed.
* `lfmpscq.c` uses the same pool with a consumer that ignores tail, so head can overtake tail. If the scan of the
  published indexes for one slot is one step, no message is ever lost. With the scan split into its single reads,
  as it is, and one of the `maxUser` users being the consumer, no run loses a message if and only if there are at
  most two users or at most three slots (`LfmpscqResults.LosslessExactlyForUsers`). The loss is one of the protocol:
  from four slots on, two producers beside the consumer can lose a message, whatever the messages are
  (`LfmpscqLostMessage.LostMessage`). With two users no check of tail comes too late, since that takes a producer
  that checks, another that has linked, and the consumer that scans. With three slots a check is late only while
  every slot is in use, and then the slot stays named by an index that the scan has still to read
  (`LfmpscqSmallPools`). A call of enqueue repeats its loop only because of others, also in a run that loses a
  message (`LfmpscqProgress.FailsOnlyByOthers`).
* No call is refused without need, in any interleaving. An enqueue that finds no free slot saw every slot in use
  during its search, and what a process holds back from the pool was named by an index during its last call
  (`MpmcqSweeps.RefusedOnlyIfNamed`, `LfmpscqCalls.KeptWasNamed`). The rings refuse exactly when they are full, and a
  read fails exactly before the first update. Every call of the schedule has returned one result or is running, and
  the messages accepted are those that its calls brought.
* Calls are short. Those of the table of rings, the ring, the update of the sensor buffer and the dequeue of
  `lfmpscq.c` are wait-free, with bounds in their sizes; the calls of `mpmcq.c`, the enqueue of `lfmpscq.c` and the
  read of the sensor buffer take a bounded number of steps for each failed iteration of their loop, and an iteration
  fails only because of others (`MpmcqSteps.CallIsShort`).
* A read of the sensor buffer is never torn, is as fresh as the last update that was complete when the read began,
  and goes back by at most one update. Reads never go back if and only if there is one buffer
  (`SensorbufferRegress.MonotoneExactly`).
* The table of rings returns exactly what each writer published, in its order; it merges by id among the messages
  published before a scan began, and starves nobody in round robin. The barrier is safe, cannot deadlock, and a wait
  takes at most 11 steps besides spinning.
* The allocator's segments and the parts of a queue inside them never overlap, the parts fill the size that is asked
  for, and how much always fits is known (`Shmman.AlwaysFits`).

## Assumptions

Memory is sequentially consistent, so that barriers are no-ops. Compare-and-swap and fetch-and-add do what
`include/atomic.h` says. User ids are distinct and below the number of users, `numSlots >= 1`, `numBuffer >= 1`, and no
`int` overflows except the message id, which wraps as in the source (`src/wfmpscq.c:80,94`). A process uses one
queue of each kind, since retire lists and scan positions are static variables. The machine of `lfmpscq.c` has a
consumer beside `maxUser` producers; the consumer of the source is one of its users and in one call at a time, which
`LfmpscqResults.OneCallEach` says of a run. What holds in every run holds in those too.

## Where code and documentation differ

* `include/wfmpscq.h:46-47` allows up to 0xffffffff messages in all with `DQSTR_IDABSOLUTE`. That count is exact: in
  every table with `numSlots >= 2`, so that a ring can hold a message, there is a run in which one more message gets
  id 0xffffffff, is published, and is not found by a dequeue that begins afterwards (`WfmpscqLimit.LimitIsExact`).
* `shmman_create_shmseg` reports success for a segment that exists, also if it is smaller than what is asked for
  (`Shmman.LargeEnoughExactly`, `Shmman.SmallerThanAskedFor`).
* The test for a full segment table (`system/linux/src/shmman.c:229`) can never succeed (`Shmman.TableNeverFull`).

## Model

| member | source | states |
|---|---|---|
| MpmcqSafety.ScanAhead | src/mpmcq.c:125-131 | while the reclaimer scans for a slot, that slot is retired by it, and every validated index that names it is still ahead of the scan |
| MpmcqSafety.LinkFacts | src/mpmcq.c:185-197 | when the link is about to succeed, the node read as tail is the last node and still tail, although tail was not checked again after next was read; the new node is not on the list |
| MpmcqSafety.RunInv | src/mpmcq.c:23-269 | the invariant holds in every state of every run |
| MpmcqResults.ValidFromCheckToOverwrite | src/mpmcq.c:177-248 | an index counts as validated exactly from a successful check at line 181, 229 or 243 until its user stores it again, and nobody else changes it |
| MpmcqResults.HazardSafety | src/mpmcq.c:113-139 | from a successful check at line 181, 229 or 243 until its user overwrites the index, the slot it names is not freed, not reused, keeps its data, and keeps its next once that is set |
| MpmcqResults.CasMovesOneLink | src/mpmcq.c:192-257 | no ABA: tail moves only from the last but one node to the last, head only from the first to the second, and the list changes only by one node at its end or its front |
| MpmcqConservation.OnePlace | src/mpmcq.c:113-269 | every slot is in exactly one place: free, claimed by one enqueuer, on the list, held by one dequeuer, at one position of one user's retire list, or being freed |
| MpmcqConservation.RetireListsFit | src/mpmcq.c:98-148 | RList and TmpList of a user together hold fewer than numSlots slots |
| MpmcqLinearizable.LinkAppends | src/mpmcq.c:197 | the link appends the message of its caller to the queue |
| MpmcqLinearizable.MoveHeadTakesFront | src/mpmcq.c:257-263 | moving head removes the front message, and it is the one that is copied afterwards |
| MpmcqLinearizable.OtherStepsKeepFifo | src/mpmcq.c:113-269 | no other step of any process changes the messages in the queue |
| MpmcqLinearizable.ReadsEmpty | src/mpmcq.c:237-248 | a dequeuer that reads an undefined next through its protected head reads it at a moment when the queue is empty |
| MpmcqResults.Linearizable | src/mpmcq.c:151-269 | in every interleaving the effects replay as one FIFO; each completed call but an enqueue without a slot, which has no effect, reports an effect, or an empty queue, from between its begin and its end, and answers the operation and message that its user began there; each effect belongs to exactly one call |
| MpmcqResults.NoFreeSlotFound | src/mpmcq.c:161-162 | an enqueue whose call returned -1 for lack of a slot found every slot in use, each at some moment of its own search, whatever the others did meanwhile |
| MpmcqSweeps.HeldWasNamed | src/mpmcq.c:113-148 | in every interleaving: when a call has returned, its user holds only retired slots that some index named while the call ran, and if the call took a message, only slots that some index named after that |
| MpmcqSweeps.RefusedOnlyIfNamed | src/mpmcq.c:151-162 | when calls do not overlap and an enqueue is refused, every slot is on the list or is held by a user for whom some index named it during that user's last call |
| MpmcqSweeps.SearchFromLast | src/mpmcq.c:23-39 | each search begins at the slot that its user claimed last, at slot 0 the first time, and goes round |
| MpmcqSteps.CallIsShort | src/mpmcq.c:151-269 | in every interleaving a running call made fewer steps than a bound in width, numSlots and maxUser alone, plus eight for each failed iteration of its loop |
| MpmcqResults.EnqueueLockFree | src/mpmcq.c:173-199 | an enqueue that failed k iterations overlaps at least (k - 1) / 2 links by others; without any it fails at most once |
| MpmcqResults.DequeueLockFree | src/mpmcq.c:221-259 | a dequeue failed at most as often as head and tail moved during the call; with neither removals nor links by others it fails at most once |
| MpmcqCapacity.AllListedOrRetired | src/mpmcq.c:23-39 | when calls do not overlap and an enqueue found no free slot, every slot is on the list or in a retire list |
| MpmcqResults.FullMeansFull | src/mpmcq.c:157-162 | when calls do not overlap, an enqueue finds no free slot only if numSlots <= length + 1 + 2 * maxUser^2, and then no retire list holds more than 2 * maxUser slots |
| Pool.GetFreeSlot | src/mpmcq.c:23-39 | the cyclic scan claims the first free slot that it meets, and fails only if every slot is in use |
| Pool.Sweep | src/mpmcq.c:118-138 | keeps exactly the retired slots that some shared index names, in their order, and frees exactly the others |
| MpmcqCode.User.Append | src/mpmcq.c:170-202 | the loop links the node behind the last one, also if tail is one node behind, ends with tail on it, and leaves the old last node published |
| MpmcqCode.User.Enqueue | src/mpmcq.c:151-205 | frees exactly the retired slots that no index names, fails exactly if every slot is in use then, and else uses one free slot to put the message at the back |
| MpmcqCode.User.Dequeue | src/mpmcq.c:208-269 | reports empty exactly if there is no message, and else takes the front one; frees exactly the retired slots that no index names, then the old head likewise |
| LfmpscqSafety.ScanAhead | src/lfmpscq.c:179-185 | a validated index that names the slot under scan lies ahead of the scan |
| LfmpscqSafety.StepKeepsInv | src/lfmpscq.c:22-222 | with the scan split into single reads every step keeps the invariant, but for a check of tail that comes after the scan for that slot has read the index of the checking user |
| LfmpscqDelivery.ReadsEmpty | src/lfmpscq.c:203-209 | the consumer reads an undefined next exactly if the queue is empty at that moment |
| LfmpscqCalls.DequeueReturns | src/lfmpscq.c:203-209 | the step that reads next ends the dequeue without a message exactly if the queue is empty at that moment |
| LfmpscqCalls.SentAsBegun | src/lfmpscq.c:110-161 | in every run what a producer sent are the messages with which the schedule began its successful calls, in their order, and every call has returned or is running |
| LfmpscqCalls.RefusedOnlyIfAllUsed | src/lfmpscq.c:22-37 | in every run an enqueue that does not succeed found every slot in use, each at some moment of its own search |
| LfmpscqCalls.KeptWasNamed | src/lfmpscq.c:164-194 | in every run a slot in the retire list was named by an index in some state after the last message was taken |
| LfmpscqCalls.GotAsBegun | src/lfmpscq.c:197-222 | in every run each dequeue that began got one message, returned without one, or has still to get one |
| LfmpscqDelivery.NoLossUnlessLate | src/lfmpscq.c:110-222 | in every run without such a late check the consumer gets exactly the linked messages, in link order, and they are what the successful calls of each producer sent, in their order |
| LfmpscqDelivery.NoLossWithAtomicScan | src/lfmpscq.c:110-222 | the same for every run in which the scan for one slot is one step |
| LfmpscqSmallPools.NoLossInSmallPools | src/lfmpscq.c:110-222 | the same for every run with the scan split, if there is at most one producer beside the consumer or there are at most three slots |
| LfmpscqLostMessage.LostMessage | src/lfmpscq.c:110-222 | with the scan split, at least two producers beside the consumer and at least four slots, and for any three messages of one size, there is a run in which the call that sent the second one returned success and the consumer, in a queue that it finds empty and with no call running, got only the first and the third |
| LfmpscqResults.NothingLostWithTwoUsers | src/lfmpscq.c:110-222 | with at most two users, one of which is the consumer, and any number of slots: in every run with the scan split the consumer gets exactly the linked messages, in link order |
| LfmpscqResults.LosslessExactlyForUsers | src/lfmpscq.c:110-222 | for each user c: in every run in which c is the consumer and in at most one call, the consumer has got as many messages as were sent whenever no call is running and it finds the queue empty, if and only if maxUser <= 2 or numSlots <= 3 |
| LfmpscqResults.LosslessExactly | src/lfmpscq.c:110-222 | the same with all maxUser users producing and a consumer that is none of them, if and only if maxUser <= 1 or numSlots <= 3 |
| LfmpscqProgress.FailsOnlyByOthers | src/lfmpscq.c:129-155 | in every run, also one that loses a message, an enqueue failed at most as many iterations as others linked nodes and tail moved during the call |
| LfmpscqProgress.EnqueueLockFree | src/lfmpscq.c:129-155 | in a run without a late check, an enqueue that failed k iterations overlaps at least (k - 1) / 2 links by others |
| LfmpscqProgress.EnqueueIsShort | src/lfmpscq.c:110-161 | in every run an enqueue takes at most numSlots + width + 9 steps and five more for each failed iteration |
| LfmpscqProgress.ListFits | src/lfmpscq.c:164-175 | with no late check so far, RList and TmpList together hold fewer than numSlots slots |
| LfmpscqProgress.DequeueWaitFree | src/lfmpscq.c:197-222 | in every run a dequeue takes at most width + 3 steps and a sweep of one slot more than were in the retire list |
| LfmpscqCode.Queue.Append | src/lfmpscq.c:131-158 | the loop links the node behind the last one, also if tail is behind head, ends with tail on it, and leaves the old last node published |
| LfmpscqCode.Queue.Enqueue | src/lfmpscq.c:110-161 | fails exactly if no slot is free, and then numSlots <= length + 1 + maxUser and nothing changes; else the message goes to the back, in one slot that was free |
| LfmpscqCode.Queue.RetireNode | src/lfmpscq.c:164-194 | keeps exactly the retired slots that some index names, at most maxUser, and leaves tail on a slot in use |
| LfmpscqCode.Queue.Dequeue | src/lfmpscq.c:197-222 | reports empty exactly if there is no message, and then changes nothing; else takes the front one, keeps exactly those of the retired slots and the old head that an index names, and frees the others |
| WfmpscqSafety.RunInv | src/wfmpscq.c:78-173 | in every run, with messages copied word by word, each ring holds what its writer published and nobody took, at most numSlots - 1 messages, in their slots and with growing ids, and every result is justified |
| WfmpscqCalls.EnqueueReturns | src/wfmpscq.c:85-109 | an enqueue returns -1 exactly if its ring holds numSlots - 1 messages when it reads head, and then takes no id; else it returns when its message is published with its id, the last of the ring |
| WfmpscqCalls.PublishedAsBegun | src/wfmpscq.c:78-110 | in every interleaving the messages published in a ring are those with which the schedule began the successful calls of its writer, in their order, and every call has returned or is running |
| WfmpscqCalls.IdsAreCounted | src/wfmpscq.c:94 | in every run, also beyond the limit of the merge, the id that a call takes is the number of ids given before it, as a 32 bit number |
| WfmpscqCalls.ResultsAsBegun | src/wfmpscq.c:113-173 | in every run each dequeue that began has returned one result or is running |
| WfmpscqCalls.EnqueueWaitFree | src/wfmpscq.c:78-110 | an enqueue takes at most width + 5 steps, whatever the others do |
| WfmpscqCalls.DequeueWaitFree | src/wfmpscq.c:113-173 | a dequeue takes at most width + 3 steps and one look at each ring in round robin, or two in the merge by id |
| WfmpscqResults.RingOrder | src/wfmpscq.c:78-173 | nothing is lost, duplicated, torn or reordered within a ring: in every interleaving the dequeues returned exactly the first messages that its writer published, in their order |
| WfmpscqResults.CopiesApart | src/wfmpscq.c:98-107 | a copy in flight by a writer and one by the consumer are never in one slot |
| WfmpscqResults.DequeueResults | src/wfmpscq.c:113-173 | a dequeue returns a published message of a ring with its id; it reports empty only if nothing was published and not taken when its scan began; by id it returns one no greater than that of any message that waited then |
| WfmpscqLimit.LimitIsExact | src/wfmpscq.c:80-130 | in every table that merges by id with numSlots >= 2 there is a run in which the message after the first 0xffffffff gets id 0xffffffff and is published, and a dequeue that begins afterwards reports empty although it is waiting |
| WfmpscqSafety.RunGoesOn | src/wfmpscq.c:78-173 | a run can always go on with any step of any writer or of the consumer |
| WfmpscqResults.RoundRobinBound | src/wfmpscq.c:137-149 | a published message with d messages ahead of it in its ring is taken before (d + 1) * numWriter further dequeues have succeeded, and no dequeue that begins while it waits returns empty |
| WfmpscqCode.Table.Enqueue | src/wfmpscq.c:78-110 | fails exactly if the ring of the writer holds numSlots - 1 messages, and then takes no id; else the message is the last of all and its id is the number of messages accepted before, modulo 2^32 |
| WfmpscqCode.Table.DequeueById | src/wfmpscq.c:113-173 | takes the message that was accepted first; if the pending ids are the last ones given, they stay so, and the id returned is the number of messages dequeued before |
| WfmpscqCode.Table.DequeueRoundRobin | src/wfmpscq.c:113-173 | takes the front message of that ring and leaves lastqueue there |
| SensorbufferResults.UntornAndFresh | src/sensorbuffer.c:59-121 | a successful read returns the data of one single update, no older than the last one complete when the read began, and at most one older than any earlier read; for any numBuffer and any flags at the start |
| SensorbufferResults.RetriesBounded | src/sensorbuffer.c:93-118 | a call that failed k attempts overlaps at least k * (numBuffer - 1) completed updates |
| SensorbufferResults.NoDataOnlyAtFirst | src/sensorbuffer.c:95-98 | in every run last_written is -1 exactly while no update is complete |
| SensorbufferResults.ReadReturns | src/sensorbuffer.c:93-120 | a read returns -1 exactly if no update is complete when it reads last_written; else it goes on until it ends with one more successful read |
| SensorbufferResults.UpdatesAsBegun | src/sensorbuffer.c:59-84 | in every interleaving the updates are those with which the schedule began, in their order, and all but a running one are complete |
| SensorbufferResults.ReadsAsBegun | src/sensorbuffer.c:87-121 | in every interleaving each read that began succeeded, returned without data, or is running |
| SensorbufferResults.UpdateIsShort | src/sensorbuffer.c:59-84 | an update takes at most width + 5 steps, whatever the reader does |
| SensorbufferResults.ReadIsShort | src/sensorbuffer.c:87-121 | a read takes at most width + 4 steps for each of its attempts, and one to begin |
| SensorbufferRegress.GoesBackByOne | src/sensorbuffer.c:77-81 | for every number of buffers from two on, and any flags at the start, a run in which the second read returns the update before the one that the first returned: v is set before last_written |
| SensorbufferRegress.MonotoneExactly | src/sensorbuffer.c:59-121 | in every interleaving no read returns an older update than an earlier read, if and only if there is one buffer |
| SensorbufferCode.Buffers.Update | src/sensorbuffer.c:59-84 | the next buffer gets the message, its r is reset and its v set; the buffers then hold the latest numBuffer updates |
| SensorbufferCode.Buffers.Read | src/sensorbuffer.c:87-121 | fails exactly if there was no update, and else returns the last one and sets r of its buffer |
| Barrier.BarrierSafety | src/barrier.c:48-66 | nobody leaves its k-th wait before everybody entered its own k-th; completed waits differ by at most one; the reset of fallen happens when everybody has left the round |
| Barrier.ReturnedAsBegun | src/barrier.c:48-66 | every wait that the schedule began has returned or is running |
| Barrier.SomebodyUnblocked | src/barrier.c:48-66 | when all users are in barrier_wait, some user is not held up by a spin loop |
| Barrier.RankDecreases | src/barrier.c:51-64 | a step of an unblocked user takes it forward, a blocked one spins in place, and nobody's step sets another user back or blocks it again |
| Barrier.WaitIsShort | src/barrier.c:48-66 | in every run, while a user is in barrier_wait, its steps in which it does not spin are at most what its rank has fallen by, and so at most 11 |
| Spscq.EnqueueReturns | src/spscq.c:54-74 | an enqueue returns -1 exactly if numSlots - 1 messages are in the ring when it reads head; else it returns when its message is accepted |
| Spscq.DequeueReturns | src/spscq.c:77-97 | a dequeue returns -1 exactly if the ring is empty when it reads next_slot; else it returns with the first message that was not delivered yet |
| Spscq.AcceptedAsBegun | src/spscq.c:54-74 | in every interleaving the accepted messages are those with which the schedule began the calls that succeeded, in their order, and every call has returned or is running |
| Spscq.WaitFree | src/spscq.c:54-97 | a call takes at most width + 3 steps, whatever the other process does |
| Spscq.RingRefinesFifo | src/spscq.c:54-97 | in every interleaving the delivered messages are a prefix of the accepted ones, at most numSlots - 1 behind, and two copies in flight are never in one slot |
| SpscqCode.Queue.Enqueue | src/spscq.c:54-74 | fails exactly if numSlots - 1 messages are in the queue, and else puts the message at the back |
| SpscqCode.Queue.Dequeue | src/spscq.c:77-97 | fails exactly if the queue is empty, and else takes the front message |
| Shmman.Allocation | system/linux/src/shmman.c:204-314 | for every sequence of calls, segments are 8-aligned, larger than asked for, inside their System V segment, disjoint, and at the sum of the sizes placed before them |
| Shmman.TableNeverFull | system/linux/src/shmman.c:228-233 | a segment that does not exist yet always finds an entry in the table |
| Shmman.FailsExactly | system/linux/src/shmman.c:222-255 | as long as no System V call fails, a call fails if and only if its segment is new, all 25 System V segments exist, and none has room; then nothing changes |
| Shmman.RegionSizeExactly | system/linux/src/shmman.c:260-265 | a System V segment has the least whole number of pages, but at least four, that is larger than its first segment |
| Shmman.MadeInPages | system/linux/src/shmman.c:261-290 | for every sequence of calls each System V segment has the size that its first segment asked for |
| Shmman.AlwaysFits | system/linux/src/shmman.c:235-268 | as long as no System V call fails: if no call asks for more than S bytes, rounded up, then a call succeeds as long as there are fewer than 25 * (4 * pagesize / S) segments |
| Shmman.LargeEnoughExactly | system/linux/src/shmman.c:222-226 | after a successful call the segment has the size asked for if and only if it is new or was asked for with a size that rounds up to enough |
| Shmman.SmallerThanAskedFor | system/linux/src/shmman.c:222-226 | a call for 100 bytes succeeds on an existing segment of 16 bytes |
| Shmman.Manager.CreateShmseg | system/linux/src/shmman.c:204-314 | answers and updates the tables as specified, and keeps them consistent |
| Layout.CellInside | src/wfmpscq.c:35-38 | every part of a queue ends inside the size that is asked for |
| Layout.CellsApart | src/wfmpscq.c:47-50 | the head, the ring indexes, the ids and the messages of a queue never overlap |
| Layout.EveryByteUsed | src/wfmpscq.c:35-38 | the parts fill the size that is asked for: every byte belongs to exactly one |
| Layout.PartsNeverOverlap | src/wfmpscq.c:98-101 | for every sequence of allocations, different (object, writer, slot) parts of queues never overlap and lie inside their System V segment |

## Left out

* Weak memory: there is no fence between publishing an index and reading tail or head again; see the assumptions.
* The assembly of the atomic operations, in particular the branch of `atomic_faa64u` for other architectures.
* NoLossUnlessLate: a late check alone does not lose a message, what follows it decides; the exact condition for a queue of given size is LosslessExactlyForUsers.
* A global FIFO order of `wfmpscq.c` when calls overlap: a writer that stopped, or a scan that has passed a ring, reorders messages; the claim is about messages published before the scan began.
* DequeueResults: the id that line 151 reads with `queue_id == -1` in round robin is not modelled, and a sum type replaces the encoding of ids and errors in one `int`.
* FailsExactly: failures of shmget and shmat, which return -1 and keep the lock.
* The barrier has no class with methods, because a call that runs alone spins for ever; it is modelled on values, so that update in place and aliasing are not captured there.
* MpmcqCode, LfmpscqCode, WfmpscqCode, SpscqCode and SensorbufferCode cover calls that do not overlap; a message is one value there, so its copy is one assignment, and checks that a value has not changed since it was read, which always succeed then, are left out (`src/mpmcq.c:181,229,243`, `src/lfmpscq.c:137`).
* More than one reader of a sensor buffer, since the `r = 1` of another reader hides the reset by the writer; and the loop at `src/sensorbuffer.c:43-48`, which moves on before it writes. The proofs start from any flags.
* Several queues of one kind in a process, which would share retire list, scan position and `lastqueue`.
* In the allocator: attaching, the local pointer tables, user counts, the lock, failures of System V calls, and finalization.
* Layout arithmetic of the objects other than `wfmpscq.c`, and the lock and init handshake in every `*_get`.
* Mutex, flag, rtipc, osfunctions, hwfunctions, demos and benchmarks.
