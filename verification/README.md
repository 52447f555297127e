# castbox: a verification model

This project models the concurrent primitives of the `castbox` crate and proves what they keep
under every interleaving of any number of clients. It covers the exclusive/group `Mutex`,
`AtomicVec`, the reference counts of `Arw`/`WeakArw` and `AnyRef`/`WeakAnyRef`,
`AtomicHashMap` with its iterator and guards, and the downcasts of `AnyRef`.

Check it with `dafny verify dfyconfig.toml`.

## How the model is built

Each component comes in two forms.

* A **step machine** on values (`*Machine.dfy`). A state holds the shared words, the memory where
  there is one, and one program counter with locals for each client. One step is one atomic load,
  store, compare-exchange, fetch, allocation or free, so a value read earlier survives as a stale
  local. `Exec` runs a schedule, and the theorems are about `Exec(Init(..), sched)` for every
  schedule and every number of clients. Fields marked as history are read by no step.
* A **class** whose methods follow the code statement by statement (`Mutex.dfy`, `Vec.dfy`,
  `Arw.dfy`, `HashMap.dfy`, `HashMapIter.dfy`, `AnyRef.dfy`). In `Mutex`, `Inner` and
  `AnyRefInner` the argument `others(n)` is whatever the other clients do before the n-th
  operation of the call, and `Valid()` says that the object's fields are what `Exec` gives for
  the recorded history; a statement for every `others` is a statement for every interleaving.
  `AtomicVec` and `AtomicHashMap` are heap structures, changed in place, one operation at a time;
  `AtomicVec` and its machine are both related to the abstract queue of `StashQueue.dfy`.

| files | content |
|---|---|
| `Wrappers`, `Words`, `Sequences`, `Tally` | options, wrapping 64-bit counters, sequences without one position, sums over clients |
| `RwLock` | the reference readers-writer lock |
| `MutexMachine`, `MutexSafety`, `MutexRefinement`, `MutexLimits`, `MutexProgress`, `Mutex` | the exclusive/group lock |
| `StashQueue`, `VecMachine`, `VecInvariant`, `VecSteps`, `VecMoves`, `VecSafety`, `VecRefinement`, `VecOrder`, `VecSlot`, `VecCalls`, `Vec` | the queue with a side slot |
| `CountMachine`, `CountInvariant`, `CountSteps`, `CountSafety`, `Arw` | strong and weak counts; `limit` is the one difference between Arw and AnyRef |
| `HashMap`, `HashMapIter` | the chained hash map and its iterator, sequentially |
| `MapMachine`, `MapInvariant`, `MapLocks`, `MapMemory`, `MapSteps`, `MapSafety` | the map's three lock levels, guards and iterators, concurrently |
| `MapFrames`, `MapPaths`, `MapRefinement`, `MapRemoval`, `MapCalls`, `MapProgress`, `MapRuns` | the map as a mathematical map: its entries, what guards show, what remove returns, what one whole call does, and that an undisturbed one returns |
| `DowncastMachine`, `DowncastSafety`, `AnyRef` | downcasts and `fill` |

## Assumptions

* Memory is sequentially consistent. `usize` has 64 bits and wraps; there are fewer than 2^64
  lock sessions, and fewer than 2^63 - 1 clients of a counted block.
* A client of a lock is one lock session, and it unlocks what it has locked. A client of the map
  or of an AnyRef is one call together with the guard or iterator it returns, so a thread that
  keeps several guards is several clients.
* **Window discipline of the Mutex.** `unlock_group` makes its last decrement
  (`src/mutex/mutex.rs:240`) and its store of DIRTY (line 241) in two operations. The safety
  theorems about the Mutex assume that no increment of `locked` (line 149) falls between the two
  (`NoArrivalInWindow`). Without it mutual exclusion is false: `UnrestrictedMutexFails` gives the
  run on a fresh lock, and `ArrivalIsSafeIffNoWindow` shows that an arrival is safe if and only if
  no window is open at that moment. That can be read off the two words before the increment:
  `WindowIsReadable` shows that a window is open exactly when they are LOCKED_GROUP and 0, and
  `ArrivalIsSafeIffWords` states the condition in those terms.
* The map and AnyRef machines use the reference lock in place of their Mutexes.
  `MutexIsAReadersWriterLock` is the justification, under the same discipline.
* A key's hash is an arbitrary function, the same for all borrowed forms of the key. A map has at
  least one bucket; with none the code divides by zero in `find_bucket`.

## Where the code differs from what one would expect

* `lock_group` enters after reading LOCKED_GROUP whatever its second load reads; that load only
  decides about waking (`src/mutex/mutex.rs:164-171`). `JoinedHoldsTheGroupOpen` shows that it
  always reads LOCKED_GROUP under the discipline.
* `is_locked_exclusive` also answers true for an open group and for DIRTY with counted clients
  (`src/mutex/mutex.rs:200-203`), so an iterator waits for shared guards too; `NotLockedMeansFree`
  says when it answers false.
* `try_lock_exclusive` fails on a fresh lock: `TryLockSucceedsIff`.
* AtomicVec does not keep the push order of one thread: `PushesReordered` is a run of two threads
  that shows it. `PushOrderKeptIff` is the exact law for any two pushes in sequence: the second
  is linked first if and only if it takes the spin flag while the slot still holds the value of
  the first. Being left in the slot is not enough (`StashedPushCanKeepItsTurn`), and a push that
  took the flag itself is never overtaken (`LockedPushKeepsItsTurn`). `OrderIsSafeIff` is the
  condition at the moment the second push starts: the order is kept in all continuations unless
  the slot holds the first value and no client with the flag has still to swap it out.
* AtomicVec's `len` does not count the value waiting in the slot (`QuiescentAccounting`). The value
  stays there until the flag is taken the next time, and no longer than that
  (`NextReleaseEmptiesTheSlot`).
* The type test that `try_downcast_*` makes before locking can pass in vain:
  `EarlyTestCanPassInVain`, `PendingFillDefeatsThePassedTest`. `PassedTestSucceedsIff` is the exact
  condition: the last payload stored between the test and the lock has the type, or none was
  stored and no fill was between its two stores with another type when the test was made.
* The test can also refuse in vain (`EarlyTestCanRefuseInVain`); `RefusalIsInVainIff` says when, and
  `EarlyTestIsRightIff` when the field tells the type of the payload.
* A mutable guard outlives the removal of its item. What it writes then belongs to no entry, but
  `remove`, which waits for the guard, returns it. So neither of two things one would expect holds
  always. A guard shows the entry of its key if and only if no client is removing its item
  (`GuardExposesTheEntryIff`). A remove is bound to return the entry that it deletes if and only if
  no client has a mutable guard on the item when it is unlinked (`RemoveReturnsTheEntryIff`);
  `RemoveReturnsAnotherValue` is a run from the empty map where the two values differ.
* The map's `len` can be below zero for a while, that is, wrap: `LenWraps` is a run in which the map
  is empty and `len` is `usize::MAX`, and `LenIsExactIff` says when `len` is the exact number.

## Model

| member | source | states |
|---|---|---|
| MutexSafety.MutualExclusion | src/mutex/mutex.rs:104-264 | in every disciplined run no exclusive holder coexists with any other holder, and neither unlock can panic |
| MutexSafety.StepKeepsInv | src/mutex/mutex.rs:104-279 | one operation by any client keeps the invariant over stale locals, provided it is not an arrival inside a window |
| MutexSafety.CounterIsExact | src/mutex/mutex.rs:149-240 | `locked` is the number of clients counted and not yet unlocked; it never wraps, and no decrement meets zero |
| MutexSafety.JoinedHoldsTheGroupOpen | src/mutex/mutex.rs:164-171 | a counted client that has read LOCKED_GROUP is in: until it moves the state stays LOCKED_GROUP, so the re-check succeeds |
| MutexSafety.WindowIsReadable | src/mutex/mutex.rs:149-241 | in every disciplined run a last decrement awaits its DIRTY store exactly when the words are LOCKED_GROUP and 0 |
| MutexRefinement.NotLockedMeansFree | src/mutex/mutex.rs:200-203 | whatever happens between the two loads, a false answer means that nobody, group members included, held the lock at the first load |
| MutexObject.Mutex.IsLockedExclusive | src/mutex/mutex.rs:200-203 | the answer is what its two loads say, each at its moment of the call; false means that the reference lock was free at the first |
| MutexRefinement.StepSimulates | src/mutex/mutex.rs:104-264 | every step is one event of the reference lock, read off the moving client, or none |
| MutexRefinement.MutexIsAReadersWriterLock | src/mutex/mutex.rs:104-264 | every disciplined run is a run of the reference readers-writer lock |
| MutexLimits.ArrivalInWindowBreaks | src/mutex/mutex.rs:149-241 | from any reachable state, an arrival inside a window can be continued to two exclusive holders |
| MutexLimits.ArrivalIsSafeIffNoWindow | src/mutex/mutex.rs:149-241 | in every state with two idle clients, an arrival is safe in all continuations if and only if no window is open |
| MutexLimits.ArrivalIsSafeIffWords | src/mutex/mutex.rs:149-241 | in every disciplined run that leaves two clients idle, an arrival is safe in all continuations if and only if it does not find LOCKED_GROUP and 0 |
| MutexLimits.UnrestrictedMutexFails | src/mutex/mutex.rs:232-248 | without the discipline a fresh lock reaches two exclusive holders |
| MutexLimits.TryLockSucceedsIff | src/mutex/mutex.rs:266-279 | alone, it succeeds exactly on (DIRTY, 0) and on (UNLOCKED, not 0), so not on a fresh lock |
| MutexProgress.LockExclusiveAloneIff | src/mutex/mutex.rs:104-140 | alone from idle, lock_exclusive reaches LOCKED and owns it if and only if it finds UNLOCKED, whatever the counter says, or DIRTY with nobody counted; in three or four operations then |
| MutexProgress.LockGroupAloneIff | src/mutex/mutex.rs:142-191 | alone from idle, lock_group enters, counted, if and only if the state is not LOCKED |
| MutexObject.Mutex.constructor | src/mutex/mutex.rs:80-93 | a fresh lock is UNLOCKED with nobody counted |
| MutexObject.Mutex.LockExclusive | src/mutex/mutex.rs:104-140 | whatever the others do in between, a caller that returns is the exclusive owner of the reference lock; it gives up only after `rounds` attempts, each refused by the words that its own operation met |
| MutexObject.Mutex.LockGroup | src/mutex/mutex.rs:142-191 | a caller that returns is a member of the open group; it gives up only after `rounds` refused exchanges |
| MutexObject.Mutex.Spin | src/mutex/mutex.rs:211-225 | returns the state that its last load has read, and the caller goes on from that value even if it is stale |
| MutexObject.Mutex.UnlockGroup | src/mutex/mutex.rs:232-248 | never panics for a member, and the caller has left the group |
| MutexObject.Mutex.UnlockExclusive | src/mutex/mutex.rs:250-264 | never panics for the owner, and the lock is free |
| MutexObject.Mutex.TryLockExclusive | src/mutex/mutex.rs:266-279 | true only for the exclusive owner of the reference lock; false means that its one exchange was refused, and leaves the caller outside |
| VecSafety.StepKeepsInv | src/collections/atomic_vec.rs:65-176 | every operation keeps the list invariant around the lock holder, the places of all values and the counter law |
| VecSafety.EveryValueInExactlyOnePlace | src/collections/atomic_vec.rs:65-137 | every pushed value is in exactly one of a hand, the slot, the list, a popper's hand, the results; nothing is lost or duplicated |
| VecSafety.LinkedIsPoppedThenList | src/collections/atomic_vec.rs:85-137 | values in link order are the popped values followed by the values in the list, and a pop returns the value of its rank |
| VecSafety.OrderOnlyGrows | src/collections/atomic_vec.rs:85-137 | a place in the link order, once given, never changes |
| VecSafety.MemoryIsSafe | src/collections/atomic_vec.rs:65-137 | no run touches or frees unallocated memory; no head, tail, slot, link of a linked or waiting block, or local pointer that will be followed refers to a freed block, also while the flag is held |
| VecSafety.ListIsWellFormedWhenUnlocked | src/collections/atomic_vec.rs:155-176 | with the flag free, walking from head visits each linked block once and ends; tail is the last; both ends are null together |
| VecSafety.LengthIsExact | src/collections/atomic_vec.rs:85-137 | `len` is the list length minus links not yet counted plus removals not yet subtracted, never negative, and at least 1 before each subtraction |
| VecSafety.QuiescentAccounting | src/collections/atomic_vec.rs:65-176 | with nothing in flight list plus slot is pushes minus successful pops, and `len` is the list length |
| VecRefinement.StepSimulates | src/collections/atomic_vec.rs:65-176 | every step is an append, a take from the front, a move into or out of the stash of the abstract queue, or nothing |
| VecRefinement.AtomicVecIsAQueueWithAStash | src/collections/atomic_vec.rs:65-176 | every run is a run of the abstract queue with one waiting value |
| VecRefinement.PopReturnsWhatItTook | src/collections/atomic_vec.rs:105-137 | the value pop returns, read long after the unlinking, is the one its step took from the front |
| StashQueue.OperationsAreTheirEvents | src/collections/atomic_vec.rs:65-137 | an undisturbed push or pop is the composition of the events of its steps |
| StashQueue.PushAddsOne | src/collections/atomic_vec.rs:65-82 | a push adds its value and loses none |
| StashQueue.PopTakesTheOldest | src/collections/atomic_vec.rs:105-137 | a pop removes exactly the front value, leaves nothing in the slot, and returns None exactly on an empty line |
| VecCalls.PopTakesTheFrontOnce | src/collections/atomic_vec.rs:105-137 | whatever the others do, between call and return a pop takes and returns exactly the front value of the line it saw at its load of `head`; it takes and returns nothing only when that line was empty |
| VecCalls.PushPutsOnce | src/collections/atomic_vec.rs:65-82 | whatever the others do, between call and return a push puts its own value into the slot or on the line exactly once |
| VecCalls.UndisturbedCallReturns | src/collections/atomic_vec.rs:65-176 | a push or pop called while the flag is free, and then run alone, returns, whatever the others have left half done |
| VecRefinement.PopFailsIffLineEmpty | src/collections/atomic_vec.rs:110-115 | a pop goes for None if and only if the line is empty at its load of `head`, whatever waits in the slot |
| VecOrder.PushOrderKeptIff | src/collections/atomic_vec.rs:65-103 | of two pushes in sequence, in any run, the second is linked first if and only if it takes the flag while the slot still holds the value of the first |
| VecOrder.LockedPushKeepsItsTurn | src/collections/atomic_vec.rs:79-81 | a push that took the flag itself is overtaken by no later push |
| VecSlot.OrderIsSafeIff | src/collections/atomic_vec.rs:65-176 | of two pushes in sequence the first keeps its turn in all continuations if and only if, when the second starts, its value is not in the slot or the client with the flag has still to swap it out |
| VecSlot.NextReleaseEmptiesTheSlot | src/collections/atomic_vec.rs:155-176 | in every run a value that waits in the slot while the flag is free is linked by the time the flag is free again after anybody has had it, a pop that returns None included |
| VecOrder.PushesReordered | src/collections/atomic_vec.rs:168-176 | a run in which a thread's second push is linked before its first, which was left in the slot after the swap and before the flag was given back |
| VecOrder.StashedPushCanKeepItsTurn | src/collections/atomic_vec.rs:168-176 | a run in which the first push is left in the slot too, and the order is kept |
| VecObject.AtomicVec.constructor | src/collections/atomic_vec.rs:45-58 | a fresh vector stands for the empty queue and has one handle |
| VecObject.AtomicVec.Push | src/collections/atomic_vec.rs:65-82 | the linked structure afterwards stands for the abstract push, whatever `is_busy` answered |
| VecObject.AtomicVec.UpdateTail | src/collections/atomic_vec.rs:85-103 | appends one item, to an empty list as well, and counts it |
| VecObject.AtomicVec.Pop | src/collections/atomic_vec.rs:105-137 | result and structure are those of the abstract pop, with `len` subtracted after the flag has been given back |
| VecObject.AtomicVec.Release | src/collections/atomic_vec.rs:168-176 | empties the slot, links what was in it, and gives the flag back |
| VecObject.AtomicVec.Clone | src/collections/atomic_vec.rs:197-202 | a handle that did not exist before joins the live handles, which the counter keeps counting, modulo the word size |
| VecObject.AtomicVec.Drop | src/collections/atomic_vec.rs:204-227 | the drop that leaves no handle, and no other while the handles fit in a word, frees the linked items in order, each once, and not the waiting one |
| CountSafety.StepKeepsInv | src/arw/strong.rs:148-357 | every operation of every client keeps the counting invariant, for both limits |
| CountSafety.CountersAreExact | src/arw/strong.rs:148-357 | `strong` counts the strong handles, `weak` the weak ones plus the implicit one, up to calls about to abort; neither wraps, and the sentinel is never reached by counting |
| CountSafety.WeakCountIsExact | src/arw/strong.rs:233-238 | weak_count is the number of weak handles (plus over-limit clones about to abort), also while the counter is sealed |
| CountSafety.DestroyedOnceInOrder | src/arw/strong.rs:342-357 | the payload is destroyed at most once and not under a handle; the block is freed at most once, afterwards, with no handle and no other operation left; both have happened once all is over |
| CountSafety.NeverRevived | src/arw/weak.rs:52-76 | once there is no strong handle there is never one again |
| CountSafety.UpgradeFailsIffDead | src/arw/weak.rs:53-70 | upgrade gives up if and only if no strong handle exists when it reads, at first or after a failed exchange |
| CountSafety.UniqueAnswerIsExact | src/arw/strong.rs:164-171 | at the load of `strong` the answer is true if and only if there is one strong handle, no weak one and no clone about to abort |
| CountSafety.UniqueSealsIff | src/arw/strong.rs:156-174 | the seal succeeds if and only if no weak handle exists and no other seal is on; otherwise the answer is false |
| CountSafety.SealHolds | src/arw/strong.rs:156-174 | while sealed, no weak handle appears and nobody touches `weak`, so the store of 1 restores the true count |
| CountSafety.ArwAndAnyRef | src/any_ref/strong.rs:340-349 | the invariant holds in all runs with either overflow test |
| ArwObject.Inner.Clone | src/arw/strong.rs:296-305 | a new handle if and only if the count was below the limit, else abort |
| ArwObject.Inner.Drop | src/arw/strong.rs:342-357 | tells whether it was the last strong handle; the last one destroys the payload and gives up the implicit reference; it fails to return only in an aborted process, never when undisturbed |
| ArwObject.Inner.IsUnique | src/any_ref/strong.rs:134-161 | true only if the handle was the only one, strong or weak, at one moment of the call; false only if it was not, or another is_unique or an aborting clone was using the counters |
| ArwObject.Inner.Seal | src/arw/strong.rs:156-161 | takes the seal exactly when `weak` is 1; a failure means another handle or another call on the counters |
| ArwObject.Inner.Unseal | src/arw/strong.rs:171-171 | restores `weak` to 1, which is the true number of weak references, and delivers the answer |
| ArwObject.Inner.Downgrade | src/arw/strong.rs:185-221 | returns a new weak handle, despite seals and failing exchanges; panics only when `weak` is above the limit and not the sentinel; goes on only while every round meets the sentinel or an exchange that fails |
| ArwObject.Inner.Upgrade | src/any_ref/weak.rs:48-72 | None only if no strong handle is left; otherwise a new strong handle; panics only when `strong` is above the limit; goes on only while every round's exchange fails |
| ArwObject.Inner.WeakClone | src/arw/weak.rs:134-145 | a new weak handle if and only if the count was within the limit, else abort |
| ArwObject.Inner.WeakDrop | src/arw/weak.rs:177-193 | performs the one free of the block if and only if this was the last weak handle and the strong side has given up its reference; fails to return only in an aborted process |
| HashMapObject.AtomicHashMap.WithCapacity | src/collections/atomic_hashmap.rs:95-104 | the empty map with the asked number of buckets; keys live at their hash modulo that number |
| HashMapObject.AtomicHashMap.Insert | src/collections/atomic_hashmap.rs:117-152 | the map is updated at one key; a new key is prepended to its own bucket, a present one keeps the list |
| HashMapObject.AtomicHashMap.Get | src/collections/atomic_hashmap.rs:154-182 | the value the map has for the key, or None |
| HashMapObject.AtomicHashMap.GetMut | src/collections/atomic_hashmap.rs:184-214 | the one item of the map with that key, or none |
| HashMapObject.AtomicHashMap.SetValue | src/collections/atomic_hashmap.rs:131-135 | storing through that item updates the map at its key and nothing else |
| HashMapObject.AtomicHashMap.Remove | src/collections/atomic_hashmap.rs:216-260 | takes the key's item, head or inner, out of its bucket and returns its value; the other items keep their order; an absent key changes nothing |
| HashMapObject.Bucket.Find | src/collections/atomic_hashmap.rs:125-142 | finds the item of a present key with its predecessor, and null exactly for an absent key |
| HashMapObject.Bucket.Prepend | src/collections/atomic_hashmap.rs:144-147 | a new item in front; the rest of the list and all other entries stay |
| HashMapObject.Bucket.Unlink | src/collections/atomic_hashmap.rs:232-239 | the list without that one position, head or inner, and the entries without that one key |
| HashMapObject.ListDecides | src/collections/atomic_hashmap.rs:125-142 | a key that no item of the list has is not in the bucket's map |
| HashMapIter.Iter.constructor | src/collections/atomic_hashmap.rs:327-336 | a new iterator has all linked items before it, bucket by bucket |
| HashMapIter.Iter.AdvanceBucket | src/collections/atomic_hashmap.rs:338-346 | terminates at the next non-empty bucket or the end without skipping an item |
| HashMapIter.Iter.Next | src/collections/atomic_hashmap.rs:352-377 | yields the first remaining entry and leaves the others, or None exactly when nothing remains |
| HashMapIter.IterationIsTheMap | src/collections/atomic_hashmap.rs:326-385 | what an iteration yields is every entry of the map once, and as many as `len` |
| HashMapIter.FreeAll | src/collections/atomic_hashmap.rs:288-307 | the last drop frees exactly the linked items, in this order |
| MapSafety.StepKeepsInv | src/collections/atomic_hashmap.rs:117-393 | every operation of every client keeps who has which lock, where every item is and what each client knows |
| MapSafety.NothingGoesWrong | src/collections/atomic_hashmap.rs:117-393 | no run uses an unallocated item, drops a value twice, overwrites one it has not dropped, or unlocks what it does not hold |
| MapSafety.DestroyedUnguarded | src/collections/atomic_hashmap.rs:132-249 | no guard on a bucket lives while an item of it is dropped, written by insert, or freed, although insert writes after unlocking and remove frees after giving back the flag |
| MapSafety.GuardsAreValid | src/collections/atomic_hashmap.rs:168-205 | a guard's item is allocated, has its key and its value, as long as the guard lives |
| MapSafety.MutGuardsAreAlone | src/collections/atomic_hashmap.rs:199-205 | a mutable guard is the only guard on its bucket |
| MapSafety.NothingIsLost | src/collections/atomic_hashmap.rs:144-249 | every allocated item is linked in its key's bucket or in exactly one client's hand, not both |
| MapSafety.ListsAreWellFormed | src/collections/atomic_hashmap.rs:117-260 | in every state each bucket is a terminated list of allocated items, with distinct keys that belong there |
| MapSafety.LookupIsExact | src/collections/atomic_hashmap.rs:165-177 | a walk ends at the linked item of its key, or with the key absent at that moment; what each operation makes of it is in the rows of MapCalls |
| MapSafety.LenIsAccounted | src/collections/atomic_hashmap.rs:145-243 | `len` is the linked items minus those not yet counted plus those not yet subtracted, modulo 2^64 |
| MapSafety.LenIsExactIff | src/collections/atomic_hashmap.rs:145-243 | `len` is that number itself if and only if it fits in a word; it is below zero, and `len` has wrapped, exactly when more links are uncounted than items are linked or not yet subtracted |
| MapRuns.LenWraps | src/collections/atomic_hashmap.rs:145-243 | a run from the empty map: an item is removed before its insert has counted it, and `len` is 2^64 - 1 with no item linked |
| MapSafety.LenAtRest | src/collections/atomic_hashmap.rs:275-277 | with no operation in flight `len` is the number of linked items |
| MapSafety.IteratorFreezesTheMap | src/collections/atomic_hashmap.rs:380-392 | while an iterator lives no step of another client changes a list, a link, `len`, or a value in the bucket being read; elsewhere values change only through older mutable guards |
| MapSafety.IteratorReadsUnguarded | src/collections/atomic_hashmap.rs:362-376 | while an entry is read there is no guard on its bucket and its value is there |
| MapSafety.IterationIsExact | src/collections/atomic_hashmap.rs:352-385 | in a concurrent run a finished iterator has yielded every linked item once, in bucket and list order, and as many as `len` |
| MapRefinement.StepSimulates | src/collections/atomic_hashmap.rs:117-260 | every step changes the entries as its event says: a put at the link, at the write of a present key and at a write through a guard of a linked item, a delete at the unlinking, else nothing |
| MapRefinement.AtomicHashMapIsAMap | src/collections/atomic_hashmap.rs:117-260 | the linked items of every run are the entries of the mathematical map its events build up |
| MapRefinement.LookupAnswersFromTheMap | src/collections/atomic_hashmap.rs:165-177 | the deciding step of a lookup answers from the map of that moment; what each operation makes of it is in the rows of MapCalls |
| MapRemoval.GuardExposesTheEntryIff | src/collections/atomic_hashmap.rs:168-250 | a guard is on the linked item of its key, with the last value given for it, if and only if no client is removing that item |
| MapRefinement.GuardedValueStays | src/collections/atomic_hashmap.rs:168-205 | while a guard lives, whatever the others do, its value is not overwritten, dropped or freed |
| MapRefinement.RemoveTakesTheEntry | src/collections/atomic_hashmap.rs:232-239 | the item a remove unlinks has the entry's value |
| MapRemoval.RemoveReturnsTheEntryIff | src/collections/atomic_hashmap.rs:228-250 | in all continuations remove returns the entry it deleted if and only if no client has a mutable guard on the item at the unlinking step |
| MapRemoval.UnguardedIsReturned | src/collections/atomic_hashmap.rs:232-250 | an unlinked item without a mutable guard keeps its value through every run until remove reads it |
| MapRemoval.GuardDecides | src/collections/atomic_hashmap.rs:184-250 | whoever has a mutable guard on an item that is being removed can make remove return any value |
| MapRuns.RemoveReturnsAnotherValue | src/collections/atomic_hashmap.rs:184-250 | a run from the empty map in which the entry is `v`, the guard writes `w` after the unlinking, and remove returns `w` |
| MapCalls.InsertPutsOnce | src/collections/atomic_hashmap.rs:117-152 | between call and return an insert puts its own value under its own key exactly once |
| MapCalls.RemoveDeletesOnce | src/collections/atomic_hashmap.rs:216-260 | between call and return a remove deletes its own key at most once and does nothing else to the map; when it returns, it has deleted the key, and returns a value, if and only if the map had the key when its walk ended |
| MapCalls.GetAnswersFromTheMap | src/collections/atomic_hashmap.rs:154-214 | when a get or get_mut returns, it has a guard of its mode, lock included, on the item that the list had for the key when its walk ended, with the map's value of that moment, if and only if the map had the key then; else None |
| MapProgress.UndisturbedCallReturns | src/collections/atomic_hashmap.rs:117-260 | an insert, get, get_mut or remove called while the three locks it needs are free, and then run alone, returns |
| MapProgress.UndisturbedIteratorEnds | src/collections/atomic_hashmap.rs:326-385 | an iterator made while the map lock is free and no guard is out, and then run alone, comes to its end |
| MapProgress.GuardIsDropped | src/mutex/watch_guard_ref.rs:37-40 | the drop of a guard gives back its client's share of the guard lock and no other |
| MapRefinement.IteratorReadsEntries | src/collections/atomic_hashmap.rs:362-376 | what an iterator reads is an entry of the map at that moment |
| DowncastSafety.GuardsHaveTheirType | src/any_ref/strong.rs:281-317 | a guard of type U is on the stored payload, whose type and type field are U |
| DowncastSafety.HolderPinsThePayload | src/any_ref/strong.rs:385-392 | while a client has the lock in any mode, whatever the others do, the payload is neither replaced nor retyped |
| DowncastSafety.ExclusiveGuardsAreAlone | src/any_ref/strong.rs:301-317 | a mutable downcast guard is the only guard |
| DowncastSafety.OnlyGuardsKeepTheLock | src/any_ref/strong.rs:281-317 | exactly the clients that inspect, guard or fill hold the lock; a failed downcast holds nothing |
| DowncastSafety.InspectionIsExact | src/any_ref/strong.rs:286-294 | under the lock the answer is a guard if and only if the payload has the type; otherwise the lock is given back |
| DowncastSafety.EarlyTestIsRightIff | src/any_ref/strong.rs:282-282 | the field agrees with the payload if and only if no fill is between its two stores with another type |
| DowncastSafety.PassedTestSucceedsIff | src/any_ref/strong.rs:281-317 | a downcast that passed the early test gets a guard if and only if the last payload stored since has the type, or none was stored and no fill of another type was half done at the test |
| DowncastSafety.RefusalIsInVainIff | src/any_ref/strong.rs:281-317 | a refusal is wrong if and only if a fill has stored a payload of the type and not yet its type |
| DowncastSafety.PendingFillDefeatsThePassedTest | src/any_ref/strong.rs:385-392 | a run where the test passes, nothing is stored after it, and the downcast fails |
| DowncastSafety.EarlyTestCanPassInVain | src/any_ref/strong.rs:282-294 | a run where the early test passes and the downcast fails |
| DowncastSafety.EarlyTestCanRefuseInVain | src/any_ref/strong.rs:385-392 | a run where the early test refuses a type that the payload already has |
| AnyRefObject.AnyRefInner.TryDowncastRef | src/any_ref/strong.rs:281-299 | found: a group member with a payload of the type; missing: nothing locked, and at one operation of the call the field, before locking, or the payload, under the lock, had another type |
| AnyRefObject.AnyRefInner.TryDowncastMut | src/any_ref/strong.rs:301-317 | found: the exclusive owner with a payload of the type; missing: as for the shared downcast |
| AnyRefObject.AnyRefInner.Fill | src/any_ref/strong.rs:385-392 | when it returns, a new payload is stored, box and field have its type, and the lock is given back; it gives up only after `rounds` tries that found the lock taken |
| AnyRefObject.AnyRefInner.UseAndDrop | src/mutex/watch_guard_ref.rs:37-40 | between downcast and drop of the guard the payload and its type have not changed |

## Left out

- Progress of the Mutex under contention: `suspend` enqueues and parks without looking at the state again (`src/mutex/mutex.rs:282-298`), so a wake-up can be lost; parking and waking are no-ops on ownership here, and the methods with `rounds` state what holds when they return.
- `wake_deadlock` and `wake_all` as unlocking operations, and `unlock_all_group`, which overwrites the counter whoever waits.
- The handle count of the Mutex itself and of AtomicHashMap; of the latter only what the last drop frees is modelled.
- `try_unwrap` of Arw and AnyRef, which copies the value out and then drops it in place.
- `Arw::fill` and the guards of Arw, which are one lock session each around one store.
- The node that waits in the slot when the last AtomicVec handle is dropped is not freed by the code (`Drop` states it).
- References that an iterator has yielded and that outlive it.
- Weak memory orderings and fences, allocation layout, raw pointer conversions, Send and Sync, thread parking, formatting.
- `Backoff` and `wait_until`, which only affect timing; `WatchGuard`, whose drop unlocks a group whatever lock it has.
- The concrete hasher.
- HashMapIter.Iter.Next: without the wait for the bucket's guard lock, which no other operation can hold in a sequential run; MapMachine has it.
- HashMapObject.AtomicHashMap.Remove: sequential, so the locks and the position of the `len` update are in MapMachine only.
- MutexSafety.MutualExclusion: under the window discipline, because without it the property is false (UnrestrictedMutexFails).
- MapSafety.NothingGoesWrong: over the reference lock, so the Mutexes of the map are assumed to be used under the window discipline.
