# TAG: a verified model of the messaging module

The TAG kernel module lets threads exchange messages through *tags*. A tag has 32 levels; receivers sleep
on a level, a sender posts one message that is broadcast to them, and a receiver that finds the level
occupied installs the next epoch of the level, in the style of RCU. Tags are named by keys and reached by
descriptors. This project models its three stateful components and proves what they promise.

| files | component | form |
|---|---|---|
| `Protocol.dfy`, `ProtocolShape.dfy`, `ProtocolLocks.dfy`, `ProtocolRefs.dfy`, `ProtocolGrace.dfy`, `ProtocolMessages.dfy`, `ProtocolDuty.dfy`, `ProtocolRuns.dfy`, `ProtocolGuarantees.dfy`, `ProtocolOutcomes.dfy`, `ProtocolWaking.dfy`, `ProtocolResults.dfy`, `ProtocolProgress.dfy`, `ProtocolBounds.dfy`, `ProtocolVerdicts.dfy`, `ProtocolCalls.dfy`, `ProtocolDeletion.dfy`, `ProtocolRefusals.dfy`, `ProtocolStranded.dfy` | receive, send, AWAKE_ALL and DELETE on one descriptor | a step system with inductive invariants |
| `RobinHood.dfy`, `Layout.dfy`, `Sizes.dfy`, `Probing.dfy`, `HashMap.dfy`, `HashMapLaws.dfy` | the Robin Hood hash map | values for the theory, array loops and a class for the code |
| `Bitmask.dfy`, `Registry.dfy` | descriptors: bit mask, key map and `tags[]` kept in agreement | classes |
| `Composition.dfy` | registry and protocol together, at one descriptor | lemmas over joint runs |

`dafny verify dfyconfig.toml` checks everything.

**The protocol.** A `State` holds one descriptor: its slot in `tags[]`, its lock, every tag, level slot and
level instance ever created (numbers are never reused, `freed` is a flag), any number of threads, and the
log of the messages posted. A thread runs one call after another; its program counter is the next line
that touches shared memory. `Protocol.Go` is the program, one case a line, with the source's branches and
error codes; it sees shared memory through one `View` and answers with the thread's next variables and
one `Effect`. `Protocol.Apply` carries the effect out. `Protocol.Enabled` says which steps may happen: a
lock is taken only when it can be, a sleeper goes on only when somebody has taken it out of its wait queue,
and a signal breaks a wait only if it is one (the lock cannot be taken at once or others wait for it already,
or the sleeper is still in the queue). Going to sleep is one step: the receiver enters the queue and looks at
the flags, as `wait_event` does before it schedules; `wake_up_all` empties the queue, and each one woken looks
again. A `Run` is any interleaving of such steps and of tag creations, from the module just loaded.

The invariant `Runs.Safe` has these parts: every thread holds exactly what its line calls for
(`Shapes.Shape`); every lock, counter and mutex agrees with what the threads hold (`Locks.Locked`); threads
point to what they should (`Refs.Referring`); what is read or published is not freed (`Grace.Alive`);
contents (`Messages.Told`); responsibility (`Duty.Dutiful`); beside it stand `Outcomes.Settled`, what
a finished call has done, and `Waking.Wakeful`, who is in the wait queues and who is due to wake them. Each
module proves that every step keeps its part. The fields `waiters`, `members`, `rouser`, `post`, `posts` and
`log`, and `began`, `got`, `source` and `part` of a thread, are auxiliary: no step depends on them.

The calls as a whole are in `Verdicts`, `Calls`, `Deletion` and `Refusals`. `Verdicts.Judge` is a table, in
terms of the state and not of the program: which step of a call decides its result, and what the result is.
`Verdicts.CallDecided` proves, over every run, that a call that is over has been decided by exactly one of its
own steps and returns what the table says; what each kind of call returns, has done or has left alone follows.

A signal can break AWAKE_ALL off at the lock of some level. It then leaves the sleepers from that level on in
their queues and the flag as it is (`Waking.BreakLeaves`). `Stranded.StrandedSleeper` is a run of three calls that
ends so, and `Waking.AwakeAllWakes` shows that nothing else leaves a receiver asleep behind a set flag.

**The hash map** stands for the finite map `Model`. `Represents` says so for a bucket sequence: the slot of
every key is recorded, every distance is the distance from the home slot plus one, and around the circular
table each distance is at most its predecessor's plus one. Everything else about probing, swapping and
shifting follows from these.

**The registry** gives every reserved descriptor one owner: the call creating or deleting it, the published
tag, or nobody, when its creator was killed while rolling back. Each method is one critical section, so any
interleaving of any calls is a sequence of these methods, and `Valid` is kept by each. A method that changes
something states the change as a whole, `View() == Changed(old(View()), ...)`, and a `History` is any sequence
of such changes. The registry has all descriptors and no levels, the protocol one descriptor with everything
below it; `Composition` runs both with the same threads and proves that every history of the registry meets
the protocol's condition on tag creation.

Where code and comments differ, the model follows the code: the buffer of a level is *not* cleared when the
level is reset (the size is set to 0 before the `memset` that uses it), and `clear_tag_common` on a bit that
is already clear puts the key back. Neither matters: no receive sees older bytes, and that bit is never clear.

## Model

| member | source | states |
|---|---|---|
| Guarantees.Freshness | tag-module/tag-syscall.c:450-624 | a receive that returned 1 holds the beginning, as much as fits, of one message posted on its level after the call began, in every interleaving and on every path to a new epoch |
| Guarantees.FreshnessOverRuns | tag-module/tag-syscall.c:409-695 | over runs: a receive started at step j and over with 1 at step k got a message not in the log at step j |
| Guarantees.StaysWhileRead | tag-module/tag-syscall.c:327-382 | no step of any thread changes ready, size or buffer of a ready instance while somebody reads it |
| Guarantees.Broadcast | tag-module/tag-syscall.c:606-678 | from ready until the last reader has left, the message of an instance is the same throughout any run |
| Guarantees.OneMessage | tag-module/tag-syscall.c:337-382 | at most one message between two resets; ready exactly when there is one; then size and buffer are that message's |
| Guarantees.GracePeriod | tag-module/tag-syscall.c:630-659 | when the last receiver frees an instance, no level points to it, nobody reads it and nobody who fetched it is about to |
| Guarantees.NeverFreedInUse | tag-module/tag-syscall.c:450-483 | an instance read under its rcu_lock is never freed, nor is one published in the tag of tags[] |
| Guarantees.EpochStep | tag-module/tag-syscall.c:524-582 | a level's pointer changes only by publishing the next epoch, empty and not freed; the restore after a broken wait changes nothing |
| Guarantees.EpochsGrow | tag-module/tag-syscall.c:545-561 | over every run the published epochs of a level never go backwards |
| Guarantees.SomebodyResponsible | tag-module/tag-syscall.c:597-679 | a live ready instance has a counted receiver, or a last receiver that has still to reset or free it |
| Guarantees.Quiescence | tag-module/tag-syscall.c:626-689 | when no call is inside a tag, every instance not freed is not ready, uncounted and unlocked, and the tag's counter is 0 |
| Guarantees.TagCounter | tag-module/tag-syscall.c:470-480 | the tag's counter is the number of receives between increment and final decrement, all of them holding the tag lock |
| Guarantees.NeverPending | tag-module/tag-syscall.c:866-878 | DELETE never finds pending operations: that branch is unreachable |
| Guarantees.DeleteExclusion | tag-module/tag-syscall.c:880-898 | while a tag is freed no other thread knows it, is counted in it or holds a lock in it |
| Guarantees.NeverNull | tag-module/tag-syscall.c:459-468 | wherever the level pointer is compared with null it points to a live instance of that level |
| Guarantees.StillReady | tag-module/tag-syscall.c:606-614 | a receiver that decided to return 1 finds the message still there when it copies |
| Outcomes.SendOutcome | tag-module/tag-syscall.c:337-388 | a send that is over has 1 as its result if and only if its text is in the log on its level; that it gets there is Calls.SendGoesThrough |
| Calls.SendResult | tag-module/tag-syscall.c:250-389 | over runs: a send returns rc if and only if one of its own steps is the cause: EINTR a broken wait, ENODATA no tag, EPERM a denied permission, EFAULT a faulting copy, 0 nobody counted on the tag, the mutex with another thread, a message there or nobody waiting, 1 the posting |
| Calls.SendGoesThrough | tag-module/tag-syscall.c:337-388 | over runs: a send in range that meets no signal, fault or refusal, finds a tag and is not obstructed returns 1, and its text is in the log on the level asked for |
| Calls.SendPosts | tag-module/tag-syscall.c:356-388 | over runs: 1 exactly for a message in the log, posted since the send began, with the text given (none without a buffer) and on the level asked for |
| Outcomes.ReceiveOutcome | tag-module/tag-syscall.c:600-695 | a receive that is over returned 1 if and only if it took a message; it copied nothing otherwise, except that EFAULT leaves a beginning, shorter than asked for, of one message posted on the level after the call began |
| Outcomes.LogGrowth | tag-module/tag-syscall.c:356-378 | messages appear exactly with the posting line of a send, with its text, on a level of the tag in tags[], and that send has 1 to return |
| Outcomes.ReceiverTakes | tag-module/tag-syscall.c:606-624 | a receiver woken by a message goes on to copy it, and unless the copy faults returns 1 with that message |
| Outcomes.LastCloses | tag-module/tag-syscall.c:630-632 | a receiver that leaves goes on to close the instance if and only if it leaves nobody counted there |
| Outcomes.FlagMoves | tag-module/tag-syscall.c:686-773 | the tag's flag is set by AWAKE_ALL, cleared by the receiver whose decrement emptied the tag, and changed by no other step |
| Bounds.LateClearing | tag-module/tag-syscall.c:686-687 | over runs: a receiver clears the flag exactly if its decrement was that of the last one counted; somebody is counted at the clearing exactly when more receives have counted themselves in than out since |
| Calls.FlagRaised | tag-module/tag-syscall.c:767-773 | over runs: a tag's flag is clear from its creation until some AWAKE_ALL sets it |
| Bounds.CounterIsNet | tag-module/tag-syscall.c:470-480 | over runs: the tag's counter changes by the receives that counted themselves in less those that counted themselves out |
| Outcomes.SendsNowhere | tag-module/tag-syscall.c:291-296 | a send to a tag on which nobody receives is discarded with 0 |
| Outcomes.DeleteOutcome | tag-module/tag-syscall.c:893-907 | the last step of a deletion leaves the tag and every published level of it freed and has 1 as its result |
| Deletion.DeleteResult | tag-module/tag-syscall.c:820-914 | over runs: a deletion returns rc if and only if one of its own steps is the cause: 0 the tag lock held by another thread, ENODATA no tag, EPERM a denied permission, EINTR a signal at the last lock, 1 passing it |
| Deletion.DeleteDone | tag-module/tag-syscall.c:858-907 | over runs: a deletion that returns 1 has taken a tag out of tags[], and that tag and every published level of it are freed when it returns |
| Deletion.DeleteBroken | tag-module/tag-syscall.c:880-891 | over runs: a deletion that returns EINTR has put the tag it had taken out of tags[] back |
| Deletion.AlwaysBuried | tag-module/tag-syscall.c:893-907 | over runs: nobody knows a freed tag, and it is not in tags[] |
| Refusals.RefusedTouchesNothing | tag-module/tag-syscall.c:260-289 | over runs: a call that returns EINVAL, ENODATA or EPERM, and a deletion that returns 0, has touched nothing but the tag lock with any of its steps |
| Refusals.DeniedEnds | tag-module/tag-syscall.c:284-289 | over runs: a call whose permission is denied returns EPERM, or ENODATA where there is no tag |
| Calls.ImproperIff | tag-module/tag-syscall.c:257-262 | over runs: EINVAL exactly for a level outside 0 to 31 or a size outside 0 to 4096 |
| Verdicts.CallDecided | tag-module/tag-syscall.c:250-914 | over runs: exactly one of its own steps decides a call, and the call returns what that step says; an undecided call has made only steps that leave it open |
| Outcomes.AlwaysSettled | tag-module/tag-syscall.c:250-914 | these outcomes hold in every state of every run |
| Results.FinisherDecides | tag-module/tag-syscall.c:639-674 | over runs: by the time the last receiver leaves, its instance is freed if it saw a later one published, and otherwise has been emptied: not ready, size 0 |
| Results.RenewsOccupied | tag-module/tag-syscall.c:524-582 | over runs: a receiver that looked at the published instance under the write lock comes out reading the published one: a new instance of the next epoch if the first was ready, the first itself if not |
| Calls.ReceiveResult | tag-module/tag-syscall.c:409-695 | over runs: a receive returns rc if and only if one of its own steps is the cause: a broken wait, no tag, a denied permission, no memory, a faulting copy, the flag or no message when it wakes, or the copy |
| Calls.ReceiveEnters | tag-module/tag-syscall.c:491-597 | over runs: a receive that ends was counted on an instance of the level asked for, of the tag in tags[], unless a signal, a refusal, want of memory or want of a tag barred it; an occupied level does not |
| Calls.ReceiveZero | tag-module/tag-syscall.c:600-610 | over runs: a receive that returns 0 found the tag's flag set while it waited, or was broken off in its sleep with neither message nor flag there |
| Calls.ReceiveGets | tag-module/tag-syscall.c:614-624 | over runs: a receive that returns 1 holds, of one message posted on the level asked for since it began, as much as there was room for |
| Calls.ReceiveGoesThrough | tag-module/tag-syscall.c:409-695 | over runs: a receive in range that meets no signal, fault or refusal, finds a tag and never sees its flag returns 1 with a message, on an occupied level too |
| Results.AwakeWins | tag-module/tag-syscall.c:606-695 | over runs: a receive that finds the tag's flag set when it wakes returns 0 with nothing copied, message or not |
| Results.ResultStands | tag-module/tag-syscall.c:626-695 | over runs: from the release of the rcu_lock on, nothing changes what a receive returns and has copied |
| Results.GivesUp | tag-module/tag-syscall.c:600-624 | over runs: a receive that returns anything but 1 after its wait saw, when it gave up, the tag's flag set or no message, or its copy faulted part of the way; a signal takes no message away from it |
| Results.CopyReturns | tag-module/tag-syscall.c:614-695 | over runs: a receive whose copy does not fault returns 1 with what the instance held when it copied |
| Results.ReadyLasts | tag-module/tag-syscall.c:337-382 | over runs: a ready instance keeps its message until a last receiver resets it |
| Results.BroadcastAgrees | tag-module/tag-syscall.c:606-695 | over runs: two receives that copy from one instance with no reset between them return 1 with the same message, each as much as fits |
| Waking.SendWakes | tag-module/tag-syscall.c:376-382 | a receiver is left asleep on a ready instance only while the sender of the message still stands before wake_up_all |
| Waking.AwakeAllWakes | tag-module/tag-syscall.c:773-808 | a receiver is left asleep with the tag's flag set only if its instance is ready, or the AWAKE_ALL that set the flag has still to wake its level, or a signal has broken that AWAKE_ALL off |
| Waking.RouserMoves | tag-module/tag-syscall.c:773-796 | which AWAKE_ALL the flag is owed to changes only when another one sets the flag or a signal breaks this one off |
| Waking.BreakLeaves | tag-module/tag-syscall.c:780-796 | an AWAKE_ALL broken off has EINTR as its result, the flag unchanged and every sleeper still in its queue |
| Results.AwakeAllReaches | tag-module/tag-syscall.c:773-812 | over runs: an AWAKE_ALL that returns 1 has had everybody who slept on the tag when it set the flag taken out of the queues, even if the flag has been taken back meanwhile; only one whose instance has got a message may still wait for its sender's wake_up_all |
| Calls.AwakeReturns | tag-module/tag-syscall.c:773-817 | over runs: an AWAKE_ALL that has set the flag returns EINTR if a signal breaks one of its later waits, and otherwise 1 |
| Calls.AwakeHasSet | tag-module/tag-syscall.c:773-817 | over runs: an AWAKE_ALL that returns 1 has set the flag |
| Calls.AwakeResult | tag-module/tag-syscall.c:733-817 | over runs: an AWAKE_ALL returns rc if and only if one of its own steps is the cause: 0 the flag set already or nobody counted, EINTR a broken wait, ENODATA, EPERM, or 1 the end of the last level |
| Calls.QueueLaw | tag-module/tag-syscall.c:600-600 | who is in a wait queue after any event: who goes to sleep there seeing neither flag nor message, and whoever was there, has not moved and is not woken |
| Waking.WakefulKept | tag-module/tag-syscall.c:597-808 | every step keeps the wait queues, and who is due to wake them, in order |
| Waking.SupersededOccupied | tag-module/tag-syscall.c:524-545 | a superseded instance that somebody still reads holds a message, after every step |
| Stranded.StrandedSleeper | tag-module/tag-syscall.c:773-796 | a reachable state: a receiver asleep without a message, the flag of its tag set, and no AWAKE_ALL under way, the one that set it broken off with EINTR; the run breaks it at an rcu_lock that a last receiver holds for writing |
| Progress.DeadlockFreedom | tag-module/tag-syscall.c:472-634 | in every reachable state somebody can step, or each unfinished call is a receiver asleep without a message whose tag has its flag clear or its AWAKE_ALL broken off, or a last receiver spinning on an instance such a sleeper reads |
| Progress.StepMoves | tag-module/tag-syscall.c:426-689 | a step counted as progress moves its thread to another line or level |
| Bounds.StepDescends | tag-module/tag-syscall.c:250-914 | every step brings its call nearer its end, except that a woken sleeper goes back one line and a failed trylock stays |
| Bounds.CallEnds | tag-module/tag-syscall.c:250-914 | over runs: a call takes at most 206 steps of its own, two more each time it is woken and one more for each failed trylock |
| Progress.QueueMoves | tag-module/tag-syscall.c:500-510 | a receiver queued for the level lock while holding an old rcu_lock can step, or a holder of that very lock can, or that holder waits only for an instance's writer who can |
| Runs.AlwaysSafe | tag-module/tag-syscall.c:250-914 | the whole invariant holds in every state of every run |
| Runs.SafeKept | tag-module/tag-syscall.c:250-914 | every step of any thread, and every tag creation, keeps the whole invariant |
| Runs.NonePending | tag-module/tag-syscall.c:866-878 | the counter of a tag taken out of tags[] by a deleter is 0 |
| Shapes.Moves | tag-module/tag-syscall.c:426-689 | whatever memory shows it, a thread's move takes nothing twice, gives back only what it holds, and leaves it holding exactly what its next line needs, on all exit paths |
| Shapes.FineExit | tag-module/tag-syscall.c:686-689 | each line of the exit paths gives back its part and no more |
| Locks.LockedKept | tag-module/tag-syscall.c:426-689 | a move that takes only free locks keeps every lock, counter and mutex in agreement with the threads, writers alone |
| Locks.LockedCreated | tag-module/tag-syscall.c:173-183 | a new tag's locks are free and its counters 0 |
| Locks.Alone | tag-module/tag-syscall.c:632-634 | whoever holds a lock for writing is its only holder |
| Refs.BaseKept | tag-module/tag-syscall.c:426-582 | every enabled step keeps locks and pointers in order |
| Refs.Uncontended | tag-module/tag-syscall.c:567-582 | the wait for the rcu_lock of a newly published instance cannot be broken off |
| Refs.ApartKept | tag-module/tag-syscall.c:524-570 | a new instance stays unknown to others until its creator has joined it; one deleter owns a descriptor |
| Refs.LevelledKept | tag-module/tag-syscall.c:542-561 | every instance belongs to its level and the published one has the highest epoch |
| Refs.MoveReady | tag-module/tag-syscall.c:426-450 | an enabled step takes a lock only when it is free for it |
| Grace.AliveKept | tag-module/tag-syscall.c:639-659 | every step keeps what is read or published unfreed, and superseded instances about to be freed unread |
| Grace.OutOfReach | tag-module/tag-syscall.c:653-659 | what a step frees is read by nobody and published nowhere a thread can reach |
| Grace.DeleterFrees | tag-module/tag-syscall.c:1039-1046 | a level freed with its tag belongs to no other tag and is read by nobody |
| Grace.Outdated | tag-module/tag-syscall.c:653-653 | a higher epoch read without a lock proves the instance superseded |
| Messages.ToldKept | tag-module/tag-syscall.c:337-382 | every step keeps the contents of every instance intact and every thread's view of its instance right |
| Messages.MindsOther | tag-module/tag-syscall.c:356-376 | a thread that relies on the contents of an instance keeps all others from writing it |
| Messages.Copied | tag-module/tag-syscall.c:614-624 | min(receive size, sent size) bytes of the buffer are the beginning of the sent message, whatever older bytes follow |
| Messages.Overlaid | tag-module/tag-syscall.c:357-367 | copying a message into the uncleared buffer makes it the buffer's beginning |
| Messages.IntactKept | tag-module/tag-syscall.c:369-376 | only a posted message makes an instance ready, with its own size and bytes |
| Duty.DutifulKept | tag-module/tag-syscall.c:346-382 | every step keeps a responsible receiver for every ready instance |
| Duty.WatchedKept | tag-module/tag-syscall.c:346-376 | from the sender's check for waiters until it posts, somebody stays counted or keeps trying to close |
| Duty.CountStays | tag-module/tag-syscall.c:630-634 | an instance's count stays up, or the thread that empties it goes on to close it |
| HashMaps.HashMap.constructor | utils/hash-struct/hashmap.c:71-130 | an empty map of ncap buckets with the thresholds 3/4 and 1/10 |
| HashMaps.HashMap.New | utils/hash-struct/hashmap.c:86-130 | the capacity is the least power of two that is at least 16 and at least the one wanted; null exactly when allocation fails |
| HashMaps.HashMap.Resize | utils/hash-struct/hashmap.c:187-225 | grows or shrinks to new_cap buckets with the same finite map; on failure nothing changes; the other seed of the temporary map has no effect |
| HashMaps.HashMap.Set | utils/hash-struct/hashmap.c:231-275 | inserts or replaces, returns the old item; doubles, or without memory fails and changes nothing, exactly when the keys are three quarters of the buckets |
| HashMaps.HashMap.Get | utils/hash-struct/hashmap.c:279-297 | returns the item of the key, or none exactly when it is absent |
| HashMaps.HashMap.Delete | utils/hash-struct/hashmap.c:314-353 | removes and returns the item; halves exactly when the key was there, the buckets are above cap, the keys left are at most a tenth of them and memory is allocated; a failed shrink changes nothing |
| HashMaps.HashMap.Clear | utils/hash-struct/hashmap.c:168-184 | empties the map; the capacity follows update_cap even if the smaller array cannot be allocated |
| HashMaps.HashMap.Count | utils/hash-struct/hashmap.c:356-358 | the number of keys |
| HashMaps.HashMap.Represented | utils/hash-struct/hashmap.c:86-125 | always: count <= growat < nbuckets, a power of two, and a Robin Hood table of exactly the stored keys |
| HashMapLaws.Drive | utils/hash-struct/hashmap.c:168-353 | any run of set, get, delete, clear and count, with any allocations failing, gives the replies of a finite map, up to a set of a new key on 65535 keys; without failures resizing scans at most 20 buckets per set or delete |
| HashMapLaws.OneMore | utils/hash-struct/hashmap.c:231-353 | a run of the finite map extended by one allowed reply is a run of the finite map |
| HashMapLaws.SameLayout | utils/hash-struct/hashmap.c:251-341 | two maps of the same size, with as many keys of each hash, have the same distances and homes everywhere, whatever their keys, seeds and histories |
| HashMapLaws.SetThenDelete | utils/hash-struct/hashmap.c:329-341 | deleting a key just inserted restores the map and, unless resized, the distance in every slot |
| HashMapLaws.DistanceFits | utils/hash-struct/hashmap.c:27-30 | the 16-bit distance never wraps on any table of c keys if and only if c <= 65534 |
| HashMapLaws.DistanceWraps | utils/hash-struct/hashmap.c:267-273 | with 65535 keys of one home the next entry would be stored with distance 0, as an empty bucket |
| Layout.CanonicalLayout | utils/hash-struct/hashmap.c:251-274 | occupied slots, distances and homes are the same in two tables of one size whose keys can be paired with equal hashes |
| Layout.HashesDecideLayout | utils/hash-struct/hashmap.c:251-274 | so they depend only on the number of buckets and on how many keys have each stored hash |
| Layout.SameEmptySlots | utils/hash-struct/hashmap.c:254-258 | a slot empty in one layout of some keys is empty in every layout of them |
| Layout.NotLess | utils/hash-struct/hashmap.c:267-273 | no entry of one layout is nearer home than the entry of the other at the first slot where they could differ |
| RobinHood.Swap | utils/hash-struct/hashmap.c:267-273 | the swap keeps the Robin Hood order and the finite map aimed at |
| RobinHood.Place | utils/hash-struct/hashmap.c:254-258 | dropping the entry into an empty slot yields a table of exactly the map aimed at |
| RobinHood.Shift | utils/hash-struct/hashmap.c:331-341 | moving the next entry back one slot moves the hole on and keeps order and contents |
| RobinHood.Close | utils/hash-struct/hashmap.c:335-338 | stopping at an entry at home or an empty slot leaves a Robin Hood table without the key |
| RobinHood.ProbePath | utils/hash-struct/hashmap.c:285-296 | from a key's home to its slot every bucket is occupied and no nearer home than the probe, so no swap or empty slot comes first |
| RobinHood.DistanceBound | utils/hash-struct/hashmap.c:27-30 | a stored distance is at most the number of keys |
| RobinHood.FlightBound | utils/hash-struct/hashmap.c:251-274 | a distance in flight is at most the number of keys plus one |
| RobinHood.EmptySlot | utils/hash-struct/hashmap.c:252-257 | a table with fewer keys than buckets has an empty slot, so every probe ends |
| RobinHood.WrapIsModulo | utils/hash-struct/hashmap.c:251-251 | wrapping an index step by step is taking it modulo the number of buckets |
| Probing.Probe | utils/hash-struct/hashmap.c:251-274 | the loop of set: stores the item under its key, replacing exactly the one with the same key, and never stores a key twice |
| Probing.Find | utils/hash-struct/hashmap.c:284-296 | the loop of get and delete finds the slot of a key if and only if it is stored, without an early exit |
| Probing.ShiftBack | utils/hash-struct/hashmap.c:331-341 | the backward shift closes the hole with all other keys kept |
| Probing.Reinsert | utils/hash-struct/hashmap.c:200-215 | one entry of the old array goes to the new one with its stored hash |
| Probing.Rehash | utils/hash-struct/hashmap.c:195-216 | all entries of the old array are in the new one, which is a Robin Hood table of the same map |
| Probing.SeekOn | utils/hash-struct/hashmap.c:259-273 | a probe for a stored key never swaps before it reaches that key |
| Sizes.RoundUpLeast | utils/hash-struct/hashmap.c:86-94 | a power of two whose half is too small is the least one that is large enough |
| Sizes.Thresholds | utils/hash-struct/hashmap.c:124-125 | the thresholds kept by a map are exactly three quarters and a tenth of its buckets |
| Sizes.GrowIsPaid | utils/hash-struct/hashmap.c:236-241 | doubling a full table is paid for by the sets since the last resize |
| Sizes.DeleteIsPaid | utils/hash-struct/hashmap.c:342-348 | a deletion, with the halving it may bring, is paid for |
| Sizes.MayHalve | utils/hash-struct/hashmap.c:343-347 | a table due to shrink still has room after halving and stays at or above cap |
| Bitmasks.Bitmask.Initialize | utils/bitmask/bitmask.c:30-50 | null for a size below one or a failed allocation, otherwise a mask of n_bits free numbers |
| Bitmasks.Bitmask.GetAvailNumber | utils/bitmask/bitmask.c:58-85 | reserves and returns the least free number, or -1 exactly when all n_bits are taken; padding bits stay clear |
| Bitmasks.Bitmask.ClearNumber | utils/bitmask/bitmask.c:88-106 | frees exactly its number; 1, 0 or -1 for taken, free or out of range |
| Bitmasks.GetFreeBit | utils/bitmask/bitmask.c:109-115 | the least clear bit of a word |
| Bitmasks.TakenSoFar | utils/bitmask/bitmask.c:61-79 | full words and the ones below the free bit account for every smaller number |
| Bitmasks.Updated | utils/bitmask/bitmask.c:24-26 | setting or clearing bit p of a 64-bit word changes what the test reads at p and at no other bit |
| Bitmasks.RecordsSet | utils/bitmask/bitmask.c:75-79 | the word store that sets a bit adds exactly its number to the recorded set |
| Bitmasks.RecordsCleared | utils/bitmask/bitmask.c:96-105 | the word store that clears a bit removes exactly its number |
| Registries.Registry.constructor | tag-module/tag-module.c:94-105 | 512 buckets, 256 descriptors, nothing reserved |
| Registries.Registry.Reserve | tag-module/tag-syscall.c:47-128 | reserves the least free descriptor and enters the key, or fails with exactly the source's error and no change; never ENOMEM |
| Registries.Registry.Publish | tag-module/tag-syscall.c:169-190 | the tag is stored in a null slot of the descriptor its key maps to |
| Registries.Registry.Rollback | tag-module/tag-syscall.c:131-165 | a failed creation gives descriptor and key back, or strands them when killed |
| Registries.Registry.Detach | tag-module/tag-syscall.c:837-868 | the tag is taken out of tags[] and passes to the deleter |
| Registries.Registry.FinishDelete | tag-module/tag-syscall.c:886-907 | descriptor and key are freed, or the tag is restored into a slot still null |
| Registries.Registry.ClearTagCommon | tag-module/tag-syscall.c:997-1030 | for any arguments: what it frees, what it puts back, and how often it complains |
| Registries.Registry.Release | tag-module/tag-syscall.c:1006-1024 | called for a call in progress it never complains: both consistency-error branches are unreachable |
| Registries.Registry.Open | tag-module/tag-syscall.c:187-231 | the descriptor the key maps to, once its tag is published |
| Registries.ReleaseFinds | tag-module/tag-syscall.c:1007-1024 | the key of a call in progress maps to its descriptor, whose bit is set |
| Registries.HandOver | tag-module/tag-syscall.c:173-183 | when a call ends, its descriptor passes to the array or is stranded, and all structures still agree |
| Registries.KeysBound | tag-module/tag-syscall.c:78-83 | distinct keys have distinct descriptors from 0 to 255, so there are at most 256 keys |
| Registries.ChangedAgrees | tag-module/tag-syscall.c:47-231 | every change, by any call, keeps bit mask, key map, array and calls in progress in agreement |
| Registries.AlwaysCoherent | tag-module/tag-syscall.c:47-231 | over every history of changes by any calls: the structures agree, the reserved descriptors are those with an owner, and distinct keys have distinct descriptors |
| Composition.PublishCreates | tag-module/tag-syscall.c:173-183 | a call about to publish its tag finds the slot empty and no deleter at its descriptor |
| Composition.StepMirrors | tag-module/tag-syscall.c:837-907 | each step of a deletion that moves the descriptor is an allowed change of the registry, and no other step of the protocol concerns it |
| Composition.RegistryDrives | tag-module/tag-syscall.c:173-183 | over every joint run: the protocol stays in states its own runs reach, and may create a tag whenever the registry publishes one |

## Left out

- HashMaps.HashMap.Set: a new key needs fewer than 65535 keys in the map, because beyond that the 16-bit distance can wrap; HashMapLaws.DistanceFits shows that this is the exact bound. Replacing a stored key has no such condition.
- Probing.Probe: the same condition for a new key.
- Probing.SeekOn: tables of at most 65535 keys, the most on which a probe's distance fits in 16 bits.
- Probing.Reinsert: a target of fewer than 65535 keys, as for HashMaps.HashMap.Set.
- Probing.Rehash: a source of at most 65535 keys, which is all a map can hold.
- HashMapLaws.SetThenDelete: fewer than 65535 keys, as for HashMaps.HashMap.Set.
- HashMaps.HashMap.New: capacities up to 2^30, where the C `int` that doubles does not overflow.
- Guarantees.GracePeriod: speaks of readers of the instance; two receivers can each count an instance down to zero, so freeing exactly once, absence of leaks and the safety of the spinning last receiver, or of its unlocked read of the newer epoch, are not claimed.
- Guarantees.Quiescence: leaves out `w_mutex`, which a send whose copy faults unlocks after its other locks.
- Guarantees.TagCounter: the tag's counter and flag are updated one after the other, so a late clearing can take back the flag of a newer AWAKE_ALL (Bounds.LateClearing says exactly when somebody is counted then); a receiver woken after that sleeps again, which Waking.AwakeAllWakes does not count as lost.
- Bitmasks.Bitmask.ClearNumber: negative numbers index outside the mask in C and are excluded.
- A send that returns 1 does not promise that a receiver copied the message; the source does not either.
- The counters and epochs are unbounded integers; wrap-around after 2^31 epochs or waiters is not modelled.
- The scratch buckets `spare` and `edata` are local variables; items are values, so aliasing of returned item pointers is not modelled.
- `i & mask` is taken modulo the number of buckets, a power of two; SipHash and MurmurHash are any total function to 48 bits.
- The protocol is a step system on values, because its claims are about interleavings of many threads; a wait queue is the set of those asleep in it.
- The protocol has one descriptor; tag creation is one step that needs the descriptor to be free, which Composition.RegistryDrives discharges. That a thread runs one call at a time is assumed there.
- Memory barriers and weak memory: every step is atomic and sequentially consistent.
- Permissions are a yes or no from outside; root and user identities are not modelled.
- The character device, printing, syscall-table discovery, module loading and unloading, and the user-space tests.
- hashmap_scan, hashmap_probe and hashmap_free, which the module's protocol does not use to change the map.
