# Verification of the fair wait queue and the primitives on it

One machine word holds six bits of data (an owner count, or permits taken), one LOCKED bit, and the
address of the newest entry of an intrusive wait queue. `Lock` and `Semaphore` share this word and
its protocol; `Barrier` and `Gate` use the same entries with protocols of their own. This project
models all four, and the handoff of a result from the thread that sets it to the owner of an entry,
and proves what they are for: nobody is stranded, nothing that is owned is lost or counted twice,
requests are served in order, every result is set once and received, cancellation is exact, and every
fair run ends with everybody served and every call returned. The theorems hold for any number of
threads and any length of the queue.

`dafny verify dfyconfig.toml` checks everything.

## How the program is modelled

Concurrency is modelled by sequentially consistent atomic steps. For every protocol there is a
transition system in which one label is one atomic access to the word or to an entry, so that the
sequences of labels are the interleavings of the source's atomic accesses.

| files | what they model |
|---|---|
| `Opcodes.dfy`, `FairQueue.dfy` | the operation codes (`src/opcode.rs`), the queue as a plain sequence, and the greedy grant that the processing of the queue is meant to compute |
| `QueueMachine.dfy` | the queue protocol of `src/sync_primitive.rs` with its clients in `src/lock.rs` and `src/semaphore.rs`: fast paths, pushes, in-place releases, the rounds of `process_wait_queue`, cancellation, poisoning |
| `QueueInvariant.dfy`, `QueueSteps.dfy` | the invariant, by rely and guarantee: what a thread knows inside a call survives every step of every other thread |
| `QueueTheorems.dfy`, `QueueOwners.dfy`, `IdealQueue.dfy`, `QueueProgress.dfy` | what the invariant means for every run; refinement of an atomic queue; progress |
| `QueueMeaning.dfy` | what all this means to the users of a lock or a semaphore, in numbers: what is served at once, who may release, poison or cancel, what a waiter is told |
| `QueueRounds.dfy` | what a thread inside a call goes by: rounds and the clock that pays for them, snapshots, stale words |
| `LinkedQueue.dfy` | the loops of `process_wait_queue` and `remove_wait_queue_entry` over entries that are linked by `next` and `prev`, while a script of other threads pushes and releases between the accesses to the word |
| `WordBits.dfy`, `StateWord.dfy`, `PackedQueue.dfy` | the 64-bit word, every expression that computes with it, and every comparison that guards a step |
| `FastRelease.dfy` | for which counts the fast path of `release_many` is right |
| `Clients.dfy` | the compare-exchange loops of `Lock` and `Semaphore` on the packed word |
| `Placement.dfy` | the addresses of anchors and entries |
| `Handoff.dfy`, `ResultReception.dfy` | the three flags, the waker cell and the result byte of one entry; that a result is received, and that nobody waits busily |
| `Barrier.dfy`, `GenerationProgress.dfy`, `BarrierList.dfy` | the barrier's generations; that every run completes them; and `count_down` over linked entries |
| `Gate.dfy` | the gate as a transition system and over linked entries |
| `Measures.dfy` | sums and infinite runs, for the proofs of progress |

In `QueueMachine`, the guards are in `Enabled` and the steps in `Do`, one case for each atomic access
(`src/sync_primitive.rs:39-62`, `86-116`, `121-210`, `213-273`, `277-321`). A failing compare-exchange
leaves the word alone, so it is no step unless the thread's own state changes. `max_shared_owners` is
`Client.Max`: 62 for a lock, 63 for a semaphore. A semaphore may start with permits withheld. The
permits of one owner may be split and joined, since `release_many` need not match an acquisition.
Addresses enter as an arbitrary placement of 128-aligned anchors.

A lock is either poisonable or has cancellable waiters, not both: a canceller takes the poisoned
word for a word that is LOCKED.

Where the source and its documentation differ, the source is followed. The documentation of
`Gate::reset` promises a return to the controlled state; the code writes the current state back
(`src/gate.rs:139-152`).

One promise holds only under a condition. `release_many` accepts any count of eight bits, and its
fast path compares the whole word with that count (`src/semaphore.rs:509-520`). In every run, the
comparison succeeds wrongly exactly when the entry at the tail of the queue has its anchor at address
128: then the queue is dropped and permits that nobody gave back become free.
`FastRelease.ExactCondition` proves that the fast path is right in all runs if and only if the count
is at most 128 or no entry is ever placed there, and `FastRelease.FastReleaseFails` gives a run that
fails: with all 63 permits taken and one request queued, `release_many(191)` succeeds.

## Model

| member | source | states |
|---|---|---|
| QueueTheorems.NoStrandedWaiter | src/sync_primitive.rs:86-210 | In every reachable state in which LOCKED is clear and somebody is queued, the head really cannot be served (a shared request or one that waits for sharing because 62 own the lock, an exclusive one or one that waits for it because anybody does, `n` permits because fewer are free), and some owner holds what it waits for and can release it |
| QueueMeaning.LockAccepts | src/lock.rs:499-557 | In every state of a lock: an exclusive request is served at once exactly on a free lock, a shared one exactly below 62 owners without a queue, a waiting one needs to queue exactly if somebody, or 62, own the lock; a poisoned lock neither serves nor queues |
| QueueMeaning.SemaphoreAccepts | src/semaphore.rs:361-390 | In every state of a semaphore a request is served at once exactly if nobody is queued and the permits suffice, and is queued otherwise |
| QueueMeaning.LockServes | src/lock.rs:525-529 | A queued request is served by the counts on which it would have been answered at once: waiting for sharing below 62 owners, waiting for exclusion at none |
| QueueMeaning.SemaphoreServes | src/semaphore.rs:524-542 | A queued request for `n` permits is served exactly if `n` of 63 are free |
| Opcodes.FitsMeansServable | src/sync_primitive.rs:142-147 | The one comparison in the loop, operation by operation |
| QueueTheorems.OneProcessor | src/sync_primitive.rs:86-116 | LOCKED over a queue means that exactly one thread is processing it |
| QueueTheorems.Conservation | src/sync_primitive.rs:138-203 | The count in the word is the sum of all grants not yet released, stays within six bits, and covers every outstanding grant |
| QueueOwners.GrantsAreOwnedOnce | src/sync_primitive.rs:138-208 | Grants that their owners have not yet claimed correspond one to one to entries that are settled but not consumed |
| QueueTheorems.ReadersWriterExclusion | src/lock.rs:717-776 | The word is full exactly when there is an exclusive owner, who then owns alone; otherwise it counts the shared owners, at most 62 |
| QueueMeaning.SharedOwners | src/lock.rs:761-776 | Any number of shared owners up to 62 is reached, and neither a 63rd nor an exclusive one is admitted |
| QueueMeaning.PermitsAreConserved | src/semaphore.rs:509-542 | A semaphore's word counts the permits that are owned, at most 63 |
| QueueMeaning.PermitsMayBeGivenBackInParts | src/semaphore.rs:509-520 | Whoever owns permits may give back any part of them and keeps the rest |
| QueueMeaning.ReleaseNeedsAnOwner | src/opcode.rs:23-40 | In every state of a lock, the test before a shared release succeeds exactly if some owner is shared, and before an exclusive release exactly if some owner is exclusive |
| QueueMeaning.OwnerMayRelease | src/sync_primitive.rs:86-116 | Whoever knows that it owns may release, whatever else is going on |
| QueueTheorems.FirstComeFirstServed | src/sync_primitive.rs:121-210 | Grants happen in the order of the pushes, each entry at most once, and nobody still queued is older than somebody granted |
| PackedQueue.FastPathNeverOvertakes | src/lock.rs:717-776 | No fast path succeeds while anybody is queued, and what it takes still fits the six bits |
| QueueTheorems.ResultsAreSetOnce | src/sync_primitive.rs:164-208 | Every entry's result is set exactly once, or never if it was unlinked; a result that is due is owed by exactly one thread, which lists it once |
| QueueMeaning.WaiterIsTold | src/sync_primitive.rs:164-208 | A waiter that was granted is told so and owns exactly what it asked for; whoever is told of the poison was never granted anything |
| QueueMeaning.GrantsAreRecorded | src/sync_primitive.rs:138-203 | The history of grants grows with every grant |
| QueueMeaning.WaiterMayConsume | src/wait_queue.rs:558-568 | A result that was set can be taken, unless its waiter is cancelling |
| QueueTheorems.ResultIsSetOnFreshEntry | src/wait_queue.rs:437-456 | `set_result` never meets an entry that already has a result |
| QueueTheorems.QuietState | src/sync_primitive.rs:277-321 | When all calls have returned, every entry waits, has its result, or was cancelled either before or after its grant |
| QueueMeaning.WaiterMayCancel | src/sync_primitive.rs:277-321 | A waiter that has not taken its result can cancel, granted or not |
| QueueRounds.CancellerKeepsItsWord | src/sync_primitive.rs:282-320 | What a canceller hands to `release_loop` is the word that it saw when it stopped spinning, however stale |
| QueueTheorems.StaleWordCanRelease | src/sync_primitive.rs:315-320 | The stale word that a canceller hands to `release_loop` passes `can_release`, and so does the current one |
| QueueTheorems.GiveBackIsExact | src/sync_primitive.rs:315-320 | A cancelled grant takes out of the word exactly what it had put in, and takes LOCKED if somebody waits |
| QueueTheorems.UnlinkIsExact | src/sync_primitive.rs:213-273 | Cancelling a queued entry removes that entry alone and leaves the count; if the search has to restart, somebody pushed or released |
| QueueTheorems.CancellerKeepsEntry | src/sync_primitive.rs:277-321 | An entry under cancellation stays live, and its canceller's, until the canceller settles it |
| QueueTheorems.UnlockIsGreedy | src/sync_primitive.rs:138-195 | Whenever processing ends, whatever disturbed it, its last round grants exactly the greedy prefix of the actual queue from the actual count |
| QueueTheorems.RetryIsLegal | src/sync_primitive.rs:197-203 | A round that loses the race and commits by `fetch_add` still grants a legal prefix of the actual queue: all that its snapshot had room for, except perhaps the snapshot's tail |
| QueueTheorems.RoundsAreCharged | src/sync_primitive.rs:121-210 | Every extra round of a processor is paid for by a push or a release since its first snapshot |
| QueueRounds.ClockCountsDisturbances | src/sync_primitive.rs:121-210 | The clock that pays for the extra rounds counts exactly the pushes and the releases |
| QueueRounds.FirstRoundIsFresh | src/sync_primitive.rs:86-116 | Whoever takes LOCKED to process the queue begins with the word that it wrote |
| QueueRounds.NextRoundIsFresh | src/sync_primitive.rs:197-206 | Every further round begins with the word that the commit before has left |
| QueueRounds.RoundsAreCounted | src/sync_primitive.rs:197-206 | Exactly the commits that leave LOCKED set begin another round |
| FairQueue.GreedyIsUnique | src/sync_primitive.rs:142-147 | A legal prefix that cannot be extended is the greedy one |
| FairQueue.GreedyIsMaximal | src/sync_primitive.rs:142-147 | The greedy prefix is legal, and the waiter behind it does not fit |
| FairQueue.LegalGrantsWithLess | src/sync_primitive.rs:183-195 | Releases during a round cannot make its grants illegal |
| IdealQueue.StepRefines | src/sync_primitive.rs:39-210 | Every atomic step of every thread is a sequence of atomic actions on the ideal queue, on which waiters are granted one by one |
| IdealQueue.RunRefines | src/sync_primitive.rs:39-321 | Every run, of any number of threads, is a run of the ideal queue by itself, one atomic action after the other |
| IdealQueue.IdealIsFair | src/sync_primitive.rs:39-210 | The ideal queue serves its head only, lets nobody overtake, queues nobody without need, and serves exactly who fits |
| IdealQueue.PlayKeepsIdeal | src/sync_primitive.rs:39-210 | Whatever it does, its count is the sum of what is owned, within six bits |
| QueueMeaning.ExclusiveOwnerMayPoison | src/lock.rs:779-816 | An exclusive owner can poison the lock whenever nobody is processing the queue |
| QueueTheorems.PoisonedWord | src/lock.rs:779-816 | LOCKED over a null address holds in exactly the poisoned states; nobody owns or processes then |
| QueueTheorems.PoisonRefusesEverything | src/lock.rs:717-816 | On a poisoned lock nothing is acquired, queued or released until the poison is cleared |
| QueueTheorems.PoisonReachesTheQueue | src/lock.rs:793-811 | Poisoning happens only while nobody processes the queue, settles every queued entry with the poison code, newest first, and leaves all other entries alone |
| QueueTheorems.PoisonIsFinal | src/lock.rs:793-811 | An entry settled with the poison code never gets another result |
| QueueProgress.OnlyRequestsRaiseMeasure | src/sync_primitive.rs:86-210 | `64 * queue length + data` falls with every grant, release and cancellation, and only a new request raises it |
| QueueProgress.StepDecreasesRank | src/sync_primitive.rs:86-321 | Every step of a call that has started, of an owner that releases, or of a waiter that takes its result lowers a rank, unless it is idle waiting |
| QueueProgress.EveryFairRunSettles | src/sync_primitive.rs:86-321 | Every fair run without new requests comes to a state in which nobody is queued, every call has returned, and every entry has been consumed or cancelled |
| QueueProgress.NobodyDeadlocks | src/sync_primitive.rs:86-321 | Until that state is reached, some thread or owner can take a step that is not idle waiting |
| QueueInvariant.LocalIsStable | src/sync_primitive.rs:121-210 | What a thread knows inside a call survives whatever the others are allowed to do |
| QueueSteps.StepKeepsInv | src/sync_primitive.rs:39-321 | Every atomic step keeps the invariant |
| LinkedQueue.Primitive.FindHead | src/wait_queue.rs:393-415 | Walking `next` from the tail reaches the oldest entry, and makes `prev` its inverse up to the snapshot's tail |
| LinkedQueue.Primitive.SetPrev | src/wait_queue.rs:372-389 | The incremental walk leaves the same links as a full one |
| LinkedQueue.Primitive.Scan | src/sync_primitive.rs:142-181 | The walk from the head stops at the first waiter that does not fit or at the tail, after a legal prefix whose sum is `transferred` |
| LinkedQueue.Primitive.TryReset | src/sync_primitive.rs:155-173 | The reset succeeds only on the unchanged word, and fails only if somebody pushed or released |
| LinkedQueue.Primitive.Commit | src/sync_primitive.rs:183-203 | Either way of committing adds what was transferred, keeps the rest of the queue with its links, and unlocks only if the new head does not fit |
| LinkedQueue.SetResults | src/wait_queue.rs:393-415 | Walking a chain that was taken out gives every entry the result and counts them, reading each link before the entry is given away |
| LinkedQueue.Primitive.ProcessWaitQueue | src/sync_primitive.rs:121-210 | The entries served leave at the head with their results, in batches each of which was legal from the actual count at its time; the word grows by what they acquired and shrinks by what others released, the new head does not fit, and every round but the first is due to a push or a release; undisturbed, the greedy prefix is served |
| FairQueue.LegalLogStaysInRange | src/sync_primitive.rs:183-195 | However many batches there are and whatever others release between them, the count stays within its six bits |
| LinkedQueue.Primitive.FindEntry | src/wait_queue.rs:393-415 | The search finds the entry exactly if it is queued, and has set the `prev` that its removal needs |
| LinkedQueue.Primitive.RemoveEntry | src/sync_primitive.rs:213-273 | Exactly the given entry leaves, whether head, middle, tail or only entry; the others keep their order; every pass but the first is due to a push or a release; the word is unlocked exactly if nobody is left |
| LinkedQueue.Primitive.RemoveAndProcess | src/sync_primitive.rs:299-313 | A canceller takes its entry out without a result and then serves, legally, whoever can be served, so that the head does not fit when it is done |
| WordBits.AndHigh | src/wait_queue.rs:105-106 | The complement of the low mask selects the high bits of a word |
| StateWord.JoinWord | src/wait_queue.rs:96-106 | The three masks read the three parts out of a word |
| StateWord.PackOfUnpack | src/wait_queue.rs:96-106 | Every 64-bit value is the packing of its parts |
| StateWord.UnpackOfPack | src/wait_queue.rs:96-106 | Packing loses nothing |
| StateWord.SubtractIsRelease | src/sync_primitive.rs:92-100 | Subtracting from the word releases exactly when the data covers the amount |
| StateWord.AddIsGrant | src/sync_primitive.rs:201-203 | `fetch_add` grants exactly when the sum fits six bits; otherwise it flips LOCKED |
| StateWord.SetTail | src/sync_primitive.rs:46-50 | The pushed word differs in the tail only |
| StateWord.SetData | src/sync_primitive.rs:185-195 | The committed word keeps the tail, has the new data and is unlocked |
| StateWord.SmallWords | src/lock.rs:717-776 | What comparing the whole word with a small number says about its parts |
| FastRelease.WrongExactlyAtLowest | src/semaphore.rs:509-520 | In every reachable state, a word that equals the count stands for exactly that many permits and an empty queue, unless the tail's anchor is at address 128 |
| FastRelease.ExactCondition | src/semaphore.rs:509-520 | The fast path is right in every run if and only if the count is at most 128 or no entry's anchor is ever at address 128 |
| FastRelease.FastReleaseFails | src/semaphore.rs:509-520 | A run to a word on which giving back 191 permits succeeds, although 63 are taken, and drops a queued request |
| PackedQueue.GuardsAgree | src/lock.rs:499-557 | The code's comparisons of whole words decide exactly what the protocol's guards say, except that a waiting request is answered at once on the word 2; and the poisoned word is recognised |
| PackedQueue.CompareExchangeIsExact | src/sync_primitive.rs:155-160 | In every reachable state, the word that a processor or a canceller keeps from its snapshot equals the current word exactly if nobody has pushed or released since |
| PackedQueue.SnapshotStays | src/sync_primitive.rs:121-173 | What other threads may do does not change which word that is |
| PackedQueue.FindKeepsSnapshot | src/sync_primitive.rs:301-308 | A canceller goes on to process the queue with the word that its search ended with |
| PackedQueue.StepIsPacked | src/sync_primitive.rs:39-321 | In every reachable state, each step's expression on the whole word, with the compare-exchange decided by the snapshot's word, yields the word of the next state: nothing carries or borrows |
| Clients.Atomic.TryLock | src/lock.rs:717-733 | Writes once, on a zero word, or not at all and reports the word it saw |
| Clients.Atomic.TryLockSpin | src/lock.rs:695-714 | Bounded spinning does not change what an attempt may do |
| Clients.Atomic.TryShare | src/lock.rs:761-776 | Adds one exactly on a word without queue, LOCKED or a full count |
| Clients.Atomic.TryAcquire | src/semaphore.rs:524-542 | Takes the permits exactly when nobody is queued and they suffice |
| Clients.Atomic.LockOrPush | src/lock.rs:287-312 | An exclusive caller ends up as the owner, or queued on a lock it could not have acquired, or told about the poison; with one write at most |
| Clients.Atomic.TryShareSpin | src/lock.rs:736-757 | Bounded spinning for a shared owner does not change what an attempt may do |
| Clients.Atomic.ShareOrPush | src/lock.rs:433-458 | The same for a shared caller |
| Clients.Atomic.AcquireOrPush | src/semaphore.rs:361-390 | The caller ends up with its permits or queued, with exactly one write |
| Clients.Atomic.ReleaseLoop | src/sync_primitive.rs:86-116 | Fails without a write exactly on a word that does not hold the resource (data 63 for exclusive, 1 to 62 for shared, `n` or more for `n` permits); otherwise takes just that out once, and takes LOCKED exactly if there is a queue that nobody processes |
| Clients.Atomic.Release | src/semaphore.rs:509-520 | With the fast path, for exclusive owners and permits; and what happens for counts above 63 |
| Clients.Atomic.ReleaseShare | src/lock.rs:680-691 | With the fast path, for shared owners: succeeds exactly on 1 to 62 owners, takes out one, and fails without a write on a free or exclusively owned lock |
| Placement.AnchorIsUnique | src/wait_queue.rs:228-256 | The anchor is the only 128-aligned cell inside the object |
| Placement.EntryFits | src/wait_queue.rs:190-215 | The entry lies inside the object and does not overlap the anchor |
| Placement.PointersRoundTrip | src/wait_queue.rs:190-256 | From the word to the entry, back to the object, and to the word again |
| Placement.AnchorsAreDistinct | src/wait_queue.rs:228-256 | Objects that do not overlap have different anchors and entries that do not overlap |
| Placement.NullMeansNoEntry | src/wait_queue.rs:190-196 | A zero anchor, and no other, means that there is no entry |
| Placement.Construct | src/wait_queue.rs:109-157 | The anchor is set on the first use only, the entry's cells are written, and no other cell changes |
| Handoff.NoLostWakeup | src/wait_queue.rs:483-530 | A parked or pending owner has been woken, or its latest waker is installed and no result is set, or the setter is certain to wake that waker |
| Handoff.SetResultWakes | src/wait_queue.rs:437-480 | Once the result is set, at most three steps of the setter alone wake a parked owner |
| ResultReception.FinalResultIsReceived | src/wait_queue.rs:558-615 | Once the result is final, the owner has it after a fixed number of its own steps, at most five, whatever others do, and always has a next step until then |
| ResultReception.ResultWillBeReceived | src/wait_queue.rs:437-530 | Once `set_result` has been called, at most nine steps of the setter and the owner alone deliver the result |
| ResultReception.AnyResultArrives | src/wait_queue.rs:437-568 | Any byte can be handed over, whatever the owner is doing at that moment |
| ResultReception.UndisturbedOwnerParks | src/wait_queue.rs:483-530 | No busy waiting: as long as no result is set, an undisturbed owner parks after at most five steps, without waking itself, with its own waker installed |
| ResultReception.WakersAreFresh | src/wait_queue.rs:571-615 | The waker of a new poll has not been woken and is nowhere else, so being woken means being woken for this poll |
| ResultReception.ReuseIsNew | src/wait_queue.rs:109-142 | An entry that is used again starts like a new one |
| Handoff.CellIsExclusive | src/wait_queue.rs:571-615 | Owner and setter never access the waker cell at the same time, and the setter finds a waker whenever it looks |
| Handoff.FinalizeIsLast | src/wait_queue.rs:458-480 | After the final flag is set, no setter touches the entry in any run until the owner uses it again, and the owner has not consumed before |
| Handoff.EntryIsTheOwners | src/wait_queue.rs:558-568 | From the consumption of the result to the next use, no setter touches the entry |
| Handoff.ResultsArrive | src/wait_queue.rs:558-568 | The owner receives exactly the bytes that were set, each once, in order, however often the entry is used |
| Handoff.ResultIsSetOnce | src/wait_queue.rs:437-456 | The debug assertions of `set_result` hold |
| Barrier.CountIsConserved | src/barrier.rs:182-258 | While the count is not zero, count and queue add up to the number of tasks |
| Barrier.OneCallResets | src/barrier.rs:190-198 | While it is zero, exactly one call resets the barrier, and nobody in the queue has counted down |
| Barrier.RebuiltCountIsExact | src/barrier.rs:199-220 | The count rebuilt by walking the queue is the number of tasks, in every generation |
| Barrier.Generations | src/barrier.rs:162-258 | A call returns only when its generation is complete, has counted down exactly once, and returns `true` exactly if it was the last of its generation |
| Barrier.OneCallReturnsTrue | src/barrier.rs:199-230 | Of the calls of one generation exactly one returns `true` |
| Barrier.RetryHasNotCounted | src/barrier.rs:162-176 | A call that is told to try again has not counted down, and no call counts down twice |
| GenerationProgress.StepLowersRank | src/barrier.rs:162-258 | Every step but a new call lowers a rank |
| GenerationProgress.SomeoneMoves | src/barrier.rs:162-258 | Until every call waits in the queue unanswered, some call can take a step, and it lowers the rank |
| GenerationProgress.EveryFairRunRests | src/barrier.rs:162-258 | Every fair run without new calls comes to rest: all calls, told to try again or not, have counted down exactly once, those of complete generations have returned, and the others, fewer than the number of tasks, wait |
| GenerationProgress.CallsSettle | src/barrier.rs:162-258 | Any number of calls can be made, and they come to rest in such a state |
| Barrier.ResultIsSetOnce | src/barrier.rs:199-230 | A call whose result is due has none yet |
| Barrier.NobodyIsLeftBehind | src/barrier.rs:182-258 | When every call just waits, those who wait are exactly those who counted down since the last reset |
| BarrierList.Word.CountDown | src/barrier.rs:182-258 | Over linked entries: resets to the number of tasks, with results for those who waited, for those who came during the reset, and for the caller |
| Gate.DecidedGateIsEmpty | src/gate.rs:512-566 | A gate that is open or sealed has no queue, and waking it finds nobody |
| Gate.EveryEntryIsWokenOnce | src/gate.rs:512-538 | Every pushed entry is queued or was taken out by exactly one call, which sets its result once |
| Gate.EveryPushIsCounted | src/gate.rs:512-538 | When no call is in progress, the counts returned and the queue account for every push |
| Gate.EverybodyIsToldInTheEnd | src/gate.rs:512-538 | The calls under way come to their ends by themselves, and then everybody not queued has a result |
| Gate.Codes | src/gate.rs:512-523 | Sealing gives 9 and opening gives 2 to those who waited; permitting and rejecting leave the state, and give 0 and 4 at a controlled gate |
| Gate.SealedUntilOpened | src/gate.rs:541-566 | From sealing until the next opening, every task that enters is told at once that the gate is sealed |
| Gate.OpenUntilSealed | src/gate.rs:541-566 | From opening until the next sealing, every task that enters is let in at once |
| Gate.ControlledUntilDecided | src/gate.rs:541-566 | Until it is opened or sealed, a new gate makes every task wait |
| Gate.Word.Push | src/gate.rs:541-566 | A controlled gate queues the entry, a decided one answers at once |
| Gate.Word.WakeAll | src/gate.rs:512-538 | Takes the whole queue out, gives every entry its result and returns their number; the new state is the requested one, or the old one; whoever arrives during the walk is neither woken nor counted |
| Gate.Word.Permit | src/gate.rs:189-197 | At a controlled gate lets all in who wait and returns their number, otherwise reports the state; the state stays |
| Gate.Word.Reject | src/gate.rs:234-242 | The same, turning all away |
| Gate.Word.DropPager | src/gate.rs:597-603 | A dropped pager's entry gets a result, if need be by waking everybody who waits with a spurious failure; otherwise nothing changes |
| Gate.Word.Unbar | src/gate.rs:266-268 | The gate is open, everybody who waited and everybody who comes is let in |
| Gate.Word.Seal | src/gate.rs:292-294 | The gate is sealed, everybody who waited and everybody who comes is turned away |

## Left out

- Memory orderings, pointer provenance and the `loom` configuration: atomic accesses are sequentially consistent. Spurious failures of a weak compare-exchange are modelled in `Handoff`, where the source uses it.
- Spinning and `yield_now` are idle steps or nothing at all; threads, executors and wakers are numbers that have been woken or not.
- `src/lock_api.rs`, `src/pager.rs`, the `Debug` implementations and the predicates that only read the word: thin wrappers. A pager is the owner of one entry.
- `Gate::reset`: it writes the current state back, so there is nothing to prove about it.
- The immediate answer of `Lock::register_pager` for the waiting modes compares the word with a result code (`src/lock.rs:523-524`); only queued waiting entries are modelled, and a push is allowed on the word 2 too.
- Cancelling a waiter of a `Barrier`, which processes the queue as if it were a lock's: the barrier's theorems are about runs without cancellation.
- Cancelling a waiter of a poisoned `Lock`: the canceller would wait for LOCKED to clear until the poison is cleared.
- `poison_lock_internal` as a loop: it is the `Poison` step of `QueueMachine`; the wait for a canceller to clear LOCKED is not modelled as a loop because its end depends on the other thread.
- A `Barrier` for zero tasks, on which every call waits forever.
- Result code tables and conversions of `Gate`: finite and easy.
- LinkedQueue.Primitive.Interfere: other threads interfere right before each access to the word and not between accesses to private links, which they neither read nor write while LOCKED is set.
- Placement.Construct: writes the cells of the entry as a whole; the source keeps some fields when the object is used again.
- BarrierList.Word.CountDown: the only interference is the arrival of others while the count is zero; all other interleavings are in `Barrier`.
- Gate.Word.WakeAll: others arrive between the update of the word and the walk; all interleavings are in the transition system of the same module.
