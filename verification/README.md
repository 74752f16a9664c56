# Verification of the stateful core of the headers

This project models the parts of `include/base` and `include/api` that carry whole algorithms, and
proves what they promise over every run:

- `ObserverList` and its iterators (`ObserverListModel`, `ObserverListRuns`, `ObserverListClasses`,
  `ObserverListLoops`): a vector of observers that may be changed while any number of iterators walk it.
- `RepeatingCallbackList` and `OnceCallbackList` (`CallbackListModel`, `CallbackListRuns`,
  `CallbackListClass`): re-entrant notification, cancellation in mid-iteration, deferred pruning.
- The lazy creation protocol (`LazyInstance`): double-checked creation over one atomic word.
- `ObserverListThreadSafe` (`ObserverListThreadSafe`, `ObserverListThreadSafeRuns`): a locked map, task
  queues and a thread-local slot.
- `scoped_refptr` with `RefCountedBase` (`ScopedRefptr`), and `AtomicRefCount`.
- `CancelableCallback`; the abs-send-time arithmetic (`AbsSendTime`); bit utilities (`Bits`); the
  big-endian loops (`BigEndian`).

Objects that the source updates in place are classes with `modifies` clauses, and each of their
methods is proved against functions on values. Histories are sequences of states connected by those
functions, one operation at a time, and the main results quantify over all of them. Concurrent code
is a machine whose steps are the atomic actions and the locked sections.

## What the proofs found

- **Callbacks added while the last one runs.** `Notify()` advances its iterator before it runs a
  callback (`RunCallback(it++, ...)`). While the last node of the list runs, the iterator is already
  past the end and stays there, so a callback added then is not run by that activation, while one
  added during any earlier callback is. `AddedDuringActivation` is the exact condition,
  `AddedDuringLastNotRun` a history.
- **Calls after removal.** `RemoveObserver` of the thread-safe list says that a notification that has
  not started to run is aborted. `NotifyWrapper()` releases the lock before it calls the observer, so a
  removal on another sequence can come in between (`StartAfterRemoval`). A removed observer can still
  be called if and only if a wrapper for it is past its check at that moment
  (`StartsAfterRemovalIffAdmitted`), and never after a removal on its own sequence
  (`OwnRemovalIsFinal`).
- **Registration during a dispatch.** A comment in `AddObserver` of the thread-safe list says that an
  observer added during a dispatch under ALL must be notified. It is if and only if the innermost
  dispatch on that thread belongs to the same list (`AddPostsInnermost`): inside a dispatch of another
  list that is nested in one of this list, nothing is posted (`ForeignDispatchHidesOwn`).
- **Synchronous notification.** When `NotifySynchronously()` returns, each observer of the calling sequence
  that was registered at its start and not removed meanwhile has been called (`SyncCallReachesOwn`). An
  observer that a callback registers meanwhile under ALL gets its task through the queue, and it can still be
  pending then (`SyncCallLeavesLateTask`); the tasks made by the call itself are all done
  (`SyncCallLeavesNothing`).
- **Registering again.** An observer can get one notification twice (`ReRegistrationDeliversTwice`). A
  registration makes that possible if and only if it is made inside the dispatch of a notification for
  which the observer already has a task, pending or delivered (`TwiceIffClash`); a task that was dropped
  does no harm.
- **Registering on another sequence.** An observer can be called on a sequence other than the one it is
  registered on (`CalledOnOldSequence`), which a registration makes possible if and only if a task for
  the observer is still pending on another sequence (`ElsewhereIffStray`). The wrapper's debug check on
  the current sequence (`observer_list_threadsafe.h`, line 236) stops such a task where it is compiled
  in; only a wrapper that is already past the check gets through. Then the condition is that there is one
  (`ElsewhereIffStrayPastCheck`, a run in `CalledOnOldSequenceDebug`).
- **Nested notification of a once-list** takes the node of the outer loop's iterator out of the list if
  and only if that node holds a callback when the nested call is made (`NestedOnceNotifyStrands`,
  reached in `NestedOnceNotifyHappens`), so histories exclude such calls.
- **`null_callbacks_`** is said to hold null callbacks whose subscriptions are still alive. Callbacks
  added by `AddUnsafe()` to a once-list end up there too (`NullWithoutSubscription`): what is there is
  erased if and only if its subscription is destroyed (`NullErasedIffCancelled`), and these have none.
- **Counter width.** `Decrement()` may report the last reference too early once there are more than
  2^32 references (`ReportIsRightIffCountable`, `WrapReportsTooEarly`).
- **`AlignUp`** rounds up if and only if `size + alignment - 1` does not overflow, and otherwise returns
  zero (`AlignUpNearest`, `AlignUpOverflows`);
  **`operator++`** of an observer iterator keeps it in range if and only if it was not at the end
  (`AdvanceStaysInRange`).

## Model

| member | source | states |
|---|---|---|
| ObserverListModel.AddRefines | include/base/observer_list.h:270-278 | adding appends to the abstract list, or changes nothing for an observer already there, and keeps no duplicates, an exact counter and no marks without live iterators |
| ObserverListModel.RemoveRefines | include/base/observer_list.h:282-296 | removing deletes exactly the one observer from the abstract list, whether its slot is erased or only marked |
| ObserverListModel.ClearRefines | include/base/observer_list.h:311-320 | clearing empties the abstract list, whether slots are dropped or marked |
| ObserverListModel.DetachRefines | include/base/observer_list.h:332-338 | an iterator leaving, with the compaction by the last one, is invisible in the abstract list |
| ObserverListModel.EmptyAgrees | include/base/observer_list.h:322 | the counter is zero exactly when the abstract list is empty, also in mid-iteration |
| ObserverListModel.AdvanceStaysInRange | include/base/observer_list.h:173-179 | incrementing keeps an iterator in range if and only if it was not at its end, and then moves it forward |
| ObserverListModel.LoopGuardIsEndTest | include/base/observer_list.h:166-171 | comparing with `end()` is the end test |
| ObserverListModel.EqualIffSamePosition | include/base/observer_list.h:166-169 | two iterators are equal if and only if both are at an end or both are at the same slot of one list |
| ObserverListRuns.StepRefines | include/base/observer_list.h:270-338 | in every state of the list with its iterators, each operation changes the abstract list as its name says and iterator operations do not change it |
| ObserverListRuns.StepGrows | include/base/observer_list.h:139-164 | slots are compacted only by the destruction or assignment that takes the last live iterator away |
| ObserverListRuns.LiveSlotsGrow | include/base/observer_list.h:282-296 | while some iterator is live throughout, the slot vector only grows and no live entry changes index |
| ObserverListRuns.ReachableList | include/base/observer_list.h:265-338 | every reachable list has no duplicates, an exact counter, and no marked slot when no iterator is live |
| ObserverListRuns.AfterDestroy | include/base/observer_list.h:252-263 | after destruction every iterator is at its end for good, and nothing done to iterators touches the list again |
| ObserverListRuns.CopyEqualsOriginal | include/base/observer_list.h:144-164 | a copied or assigned iterator equals the original and stays equal when both are incremented |
| ObserverListRuns.BegunEmptyStaysEnded | include/base/observer_list.h:238-241 | an iterator begun on a list without slots stays at its end, whatever is registered later under either policy |
| ObserverListRuns.LoopVisitsRegisteredInOrder | include/base/observer_list.h:173-216 | for a loop interleaved with any operations and nested loops: visited slots strictly increase and whatever is visited is registered at that moment |
| ObserverListRuns.CompleteLoopMissesOnlyRemoved | include/base/observer_list.h:209-222 | a complete loop visits a slot if and only if it was not marked before the loop reached it |
| ObserverListRuns.RegistrationVisitedExactly | include/base/observer_list.h:126-137 | a registration made before the loop, or under ALL during it, is visited exactly once, or not at all if and only if it is unregistered before the loop reaches it |
| ObserverListRuns.ObserverVisitedExactly | include/base/observer_list.h:26-31 | an observer registered once is visited exactly once unless unregistered before its turn, also if it removes itself in its turn; otherwise never |
| ObserverListRuns.StandingRegistrationVisitedOnce | include/base/observer_list.h:126-137 | an observer registered before the loop, or under ALL during it, and not removed is visited exactly once |
| ObserverListRuns.ExistingOnlyVisitsOnlyInitial | include/base/observer_list.h:126-137 | under EXISTING_ONLY a loop visits only registrations found at its start |
| ObserverListRuns.LoopSlotsGrow | include/base/observer_list.h:26-31 | no entry changes index between any two moments of a loop |
| ObserverListRuns.DestroyedLoopStops | include/base/observer_list.h:252-263 | a loop whose body destroys the list visits nothing afterwards, and before that only what is registered, in order |
| ObserverListClasses.ObserverList.FindObserver | include/base/observer_list.h:284-285 | the first slot with the observer, or the end |
| ObserverListClasses.ObserverList.HasObserver | include/base/observer_list.h:299-308 | true exactly for a non-null observer in the abstract list |
| ObserverListClasses.ObserverList.AddObserver | include/base/observer_list.h:270-278 | the fields become those of the model, and the abstract list gets the observer at its end unless it was there |
| ObserverListClasses.ObserverList.RemoveObserver | include/base/observer_list.h:282-296 | the fields become those of the model, and the abstract list loses the observer |
| ObserverListClasses.ObserverList.Clear | include/base/observer_list.h:311-320 | the fields become those of the model, and the abstract list is empty |
| ObserverListClasses.ObserverList.Compact | include/base/observer_list.h:332-338 | exactly the marked slots are erased |
| ObserverListClasses.ObserverList.Begin | include/base/observer_list.h:238-241 | a new iterator at the first registered observer, none made live for an empty vector |
| ObserverListClasses.ObserverList.Destroy | include/base/observer_list.h:252-263 | terminates and detaches every live iterator; the final check passes exactly if it is not asked for or the abstract list is empty |
| ObserverListClasses.Iter.Invalidate | include/base/observer_list_internal.h:125-130 | the iterator leaves the list of live iterators, and only it |
| ObserverListClasses.Iter.IsOnlyRemainingNode | include/base/observer_list_internal.h:113-116 | comparing head with tail tells whether exactly one iterator is live |
| ObserverListClasses.Iter.Drop | include/base/observer_list.h:139-142 | detaches, compacting if it was the last, without changing the abstract list |
| ObserverListClasses.Iter.CopyOf | include/base/observer_list.h:144-148 | the copy is at the same position and live on the same list |
| ObserverListClasses.Iter.Assign | include/base/observer_list.h:150-164 | takes over the other's position and list, leaving its own list as a destruction would, also across two lists and for self-assignment |
| ObserverListClasses.Iter.Next | include/base/observer_list.h:173-179 | moves to the next unmarked slot or the end; does nothing once the list is gone |
| ObserverListClasses.Iter.Equals | include/base/observer_list.h:166-169 | two iterators, on any lists or none, are equal when both are at an end or at one position of one list |
| ObserverListLoops.ForEach | include/base/observer_list.h:63-66 | the client's loop over the classes, for every tree of calls made by its turns, nested loops included, terminates, makes the calls of its script turn by turn and nothing besides, and is a complete loop of the runs above |
| ObserverListLoops.Perform | include/base/observer_list.h:270-320 | the calls of a turn give their operations in order, one each, and a nested loop its own turns, leaving the outer iterators alone |
| ObserverListLoops.RunScript | include/base/observer_list.h:238-338 | whatever calls and loops are made on a new list, the history is a run as above made of exactly these calls, and the list is in its last state |
| CallbackListModel.InvStep | include/base/callback_list.h:153-310 | every operation keeps the lists, subscriptions and activations consistent |
| CallbackListModel.CancelLists | include/base/callback_list.h:335-341 | cancelling takes exactly one callback away; in a repeating list the node is never null, so the check there never fires |
| CallbackListRuns.SubscriptionsReferToNodes | include/base/callback_list.h:153-158 | in every history each live subscription refers to a node with a callback in the list or, for once-lists, to a null node of the null list, and no two to one node |
| CallbackListRuns.LeaveSparesSubscribed | include/base/callback_list.h:223-243 | pruning erases no node a live subscription refers to; only the outermost activation prunes or runs the removal callback |
| CallbackListRuns.CancelledNeverRuns | include/base/callback_list.h:84-90 | no callback runs after its subscription was destroyed |
| CallbackListRuns.CancelStopsItsCallback | include/base/callback_list.h:84-90 | destroying the subscription that `Add` returned keeps the callback added with it from running again |
| CallbackListRuns.CancelRemovals | include/base/callback_list.h:253-269 | a cancellation runs the removal callback if and only if one is set, no activation runs and the node is still in the list with its callback |
| CallbackListRuns.RemovalsCounted | include/base/callback_list.h:223-269 | over every history the removal callback was run once for each such cancellation and for each outermost return that erased a node or belongs to a once-list, and never besides |
| CallbackListRuns.RunsWhatWasAdded | include/base/callback_list.h:153-169 | what a node runs is the callback it was registered with |
| CallbackListRuns.ActivationRunsExactly | include/base/callback_list.h:201-221 | a re-entrant activation of either kind of list runs nodes in list order, none twice, and of the callbacks found on entry exactly those not cancelled before its cursor reached them |
| CallbackListRuns.ActivationRunsOnlyLive | include/base/callback_list.h:208-220 | whatever an activation runs is live when its cursor reaches it |
| CallbackListRuns.AddedDuringActivation | include/base/callback_list.h:208-220 | a callback added during an activation is run by it if and only if the loop's iterator was still on a node and the callback is not cancelled before its turn |
| CallbackListRuns.AddedDuringLastNotRun | include/base/callback_list.h:216-220 | a history from a new list in which a callback added while the only other one runs is not run |
| CallbackListRuns.OutermostErasesCancelled | include/base/callback_list.h:230-243 | the outermost activation erases exactly as many nodes as were cancelled since it was entered, nested activations included, and that decides the removal callback |
| CallbackListRuns.OnceRunsAtMostOnce | include/base/callback_list.h:292-300 | a once-list runs each callback at most once in its history |
| CallbackListRuns.OnceNotifyTakesAll | include/base/callback_list.h:201-244 | a notification that finds a once-list non-empty starts by running a callback, runs exactly once each callback it found that is not cancelled before its turn, leaves none of those it found, and runs the removal callback |
| CallbackListRuns.NullErasedIffCancelled | include/base/callback_list.h:253-269 | in every history a callback that was run stays in the null list until its subscription is destroyed, and is gone for good after that |
| CallbackListRuns.NullWithoutSubscription | include/base/callback_list.h:292-296 | a history from a new list with a null callback that has no subscription |
| CallbackListRuns.NestedOnceNotifyStrands | include/base/callback_list.h:292-296 | from the first turn of a nested call on a once-list, the outer iterator's node is gone if and only if it held a callback at the call; a node null then stays for the whole call |
| CallbackListRuns.NestedOnceNotifyHappens | include/base/callback_list.h:216-220 | a history from a new list in which the node is taken away |
| CallbackListClass.CallbackList.Add | include/base/callback_list.h:153-158 | appends a node and a subscription that refers to it |
| CallbackListClass.CallbackList.Cancel | include/base/callback_list.h:253-269 | cancels the node of the subscription in every branch, and runs the removal callback exactly if a live node is erased outside every activation |
| CallbackListClass.CallbackList.Empty | include/base/callback_list.h:179-182 | true exactly when no node holds a callback |
| CallbackListClass.CallbackList.NextValid | include/base/callback_list.h:211-215 | the first node with a callback at or after the iterator |
| CallbackListClass.CallbackList.EraseNulls | include/base/callback_list.h:232-233 | erases exactly the null nodes and counts them |
| CallbackListClass.CallbackList.EnterLoop | include/base/auto_reset.h:24-28 | sets the flag, keeping its old value for later |
| CallbackListClass.CallbackList.LeaveLoop | include/base/auto_reset.h:40-43 | restores the flag, then prunes if and only if no activation is left |
| CallbackListClass.CallbackList.Notify | include/base/callback_list.h:201-244 | for every tree of calls made by callbacks, terminates, runs callbacks turn by turn with the calls of its script and nothing besides, and is an activation of the histories above |
| CallbackListClass.CallbackList.Perform | include/base/callback_list.h:153-269 | the calls a callback makes give their operations in order, one each, and a nested notification its own turns |
| LazyInstance.CreatedMask | include/base/lazy_instance_helpers.h:66-69 | the mask test tells pointers from 0 and "creating" |
| LazyInstance.WordMovesOnce | include/base/lazy_instance_helpers.h:18-33 | in every interleaving the word moves from 0 to "creating" to one pointer only, and the creator runs at most once |
| LazyInstance.AllReturnTheSame | include/base/lazy_instance_helpers.h:77-94 | all returning threads get one pointer, not 0 and not 1, and see the finished construction, under a release and acquire memory model with stale reads |
| LazyInstance.ReturnsWhatWasCreated | include/base/lazy_instance_helpers.h:77-94 | what any thread returns is the pointer the creator made, in the only call of the creator in the whole run |
| LazyInstance.FastPath | include/base/lazy_instance_helpers.h:66-82 | the first load returns at once if and only if it reads a pointer |
| LazyInstance.ReadsFollowChanges | include/base/lazy_instance_helpers.h:66-94 | the reads of a thread follow the order in which the word changed |
| LazyInstance.WaitingHasCreator | include/base/lazy_instance_helpers.h:22-25 | while a thread waits, the instance is stored or exactly one other thread is creating it |
| LazyInstance.IsCreatedMonotone | include/base/lazy_instance.h:164-170 | no thread sees IsCreated() turn back from true |
| LazyInstance.WorkStep | include/base/lazy_instance_helpers.h:77-93 | no step adds work, and only a turn of the waiting loop may leave it as it is |
| LazyInstance.ProgressStep | include/base/lazy_instance_helpers.h:77-93 | while some thread has not returned, some step leaves less work |
| LazyInstance.CanFinish | include/base/lazy_instance_helpers.h:77-93 | from every reachable state all threads can return |
| ObserverListThreadSafe.TraverseObservers | include/base/observer_list_threadsafe.h:189-205 | the loop over the map makes one task per observer and puts those of the calling sequence aside, in order |
| ObserverListThreadSafe.AddPostsInnermost | include/base/observer_list_threadsafe.h:126-137 | for every nesting of dispatches, registering under ALL posts exactly the innermost notification if it is this list's, else nothing; under EXISTING_ONLY nothing |
| ObserverListThreadSafe.SlotStep | include/base/observer_list_threadsafe.h:239-255 | the thread-local slot always holds the innermost dispatch, saved values restored in last-in-first-out order |
| ObserverListThreadSafe.InvStep | include/base/observer_list_threadsafe.h:104-256 | every step, in any interleaving, keeps tasks, call stacks, slots and the log consistent: a held task is in a loop of its sequence, an admitted one on top of its stack, a started one logged once |
| ObserverListThreadSafeRuns.TaskStep | include/base/observer_list_threadsafe.h:227-251 | the step that checks a task lets it through exactly if its observer is registered and drops it otherwise; the call starts it; no other step touches it |
| ObserverListThreadSafeRuns.CheckDecides | include/base/observer_list_threadsafe.h:230-237 | in every run, a task is let through or started after its check exactly if the observer was registered at the check, and dropped otherwise |
| ObserverListThreadSafeRuns.DecidedByCheck | include/base/observer_list_threadsafe.h:230-237 | every task let through, started or dropped has an earlier check that decided so |
| ObserverListThreadSafeRuns.StartedOnlyIfRegistered | include/base/observer_list_threadsafe.h:227-251 | for every callback started in a run from a new list, an earlier locked check found the observer in the map |
| ObserverListThreadSafeRuns.DeliveredWhereRegistered | include/base/observer_list_threadsafe.h:35-36 | callbacks start only on sequences on which their observer was registered |
| ObserverListThreadSafeRuns.StartsAfterRemovalIffAdmitted | include/base/observer_list_threadsafe.h:140-148 | a removed observer can still be called if and only if a wrapper for it had passed its check and not started the callback |
| ObserverListThreadSafeRuns.OwnRemovalIsFinal | include/base/observer_list_threadsafe.h:38-42 | after a removal on the only sequence an observer was registered on, it is never called unless registered again |
| ObserverListThreadSafeRuns.StartAfterRemoval | include/base/observer_list_threadsafe.h:227-251 | a run in which a callback starts after its observer was removed |
| ObserverListThreadSafeRuns.Deliver | include/base/observer_list_threadsafe.h:158-161 | from every state, a pending task of a registered observer can still be delivered by carrying on |
| ObserverListThreadSafeRuns.DeliveredAtMostOnce | include/base/observer_list_threadsafe.h:163-210 | no observer gets one notification twice in any run, with any re-registrations, in which no registration clashes with a pending or delivered task |
| ObserverListThreadSafeRuns.FirstRegistrationNeverClashes | include/base/observer_list_threadsafe.h:103-119 | first registrations never clash |
| ObserverListThreadSafeRuns.TwiceIffClash | include/base/observer_list_threadsafe.h:126-137 | a registration makes a double delivery possible if and only if it clashes |
| ObserverListThreadSafeRuns.ReRegistrationDeliversTwice | include/base/observer_list_threadsafe.h:103-138 | a run from a new list in which an observer that registers again gets one notification twice |
| ObserverListThreadSafeRuns.StartedAtHome | include/base/observer_list_threadsafe.h:232-237 | if no registration strays from a pending task, callbacks start only where their observer is registered |
| ObserverListThreadSafeRuns.ElsewhereIffStray | include/base/observer_list_threadsafe.h:227-251 | a registration makes a call on another sequence possible, without the debug check, if and only if a task for the observer is pending on another sequence |
| ObserverListThreadSafeRuns.ElsewhereIffStrayPastCheck | include/base/observer_list_threadsafe.h:230-251 | with the debug check, if and only if a wrapper for the observer is past its check on another sequence |
| ObserverListThreadSafeRuns.CalledOnOldSequence | include/base/observer_list_threadsafe.h:227-251 | a run from a new list after which that can happen, without the debug check |
| ObserverListThreadSafeRuns.CalledOnOldSequenceDebug | include/base/observer_list_threadsafe.h:227-251 | a run from a new list, passing every debug check, after which that can happen |
| ObserverListThreadSafeRuns.NotificationReachesAll | include/base/observer_list_threadsafe.h:158-175 | once no task is left, each observer registered at a notification and not removed since has got it exactly once, whatever happened to the others |
| ObserverListThreadSafeRuns.SyncCallReachesOwn | include/base/observer_list_threadsafe.h:177-210 | a synchronous notification, when it returns, has called each observer of its own sequence that was registered at its start and not removed meanwhile exactly once, on that sequence, whatever the callbacks and other sequences do, nested synchronous calls included |
| ObserverListThreadSafeRuns.SyncCallLeavesNothing | include/base/observer_list_threadsafe.h:177-210 | when it returns, none of the tasks that it made for its own sequence is pending |
| ObserverListThreadSafeRuns.SyncCallInOrder | include/base/observer_list_threadsafe.h:189-209 | it calls the observers of its own sequence in the order in which it traversed them |
| ObserverListThreadSafeRuns.SyncCallLeavesLateTask | include/base/observer_list_threadsafe.h:126-137 | a run from a new list in which an observer registered by a callback of the synchronous call has its task for that notification still pending when the call returns |
| ObserverListThreadSafeRuns.ForeignDispatchHidesOwn | include/base/observer_list_threadsafe.h:126-137 | a run in which registering inside a dispatch of another list, nested in one of this list, posts nothing |
| ScopedRefptr.RefCounted.Release | include/api/ref_counted_base.h:24-30 | drops one reference and deletes the object exactly with the last |
| ScopedRefptr.NoDanglingReference | include/api/scoped_refptr.h:109-118 | an object is deleted if and only if no smart pointer and no handed-out reference refers to it |
| ScopedRefptr.Refptr.constructor | include/api/scoped_refptr.h:78-92 | taking a reference keeps every count equal to the references in existence |
| ScopedRefptr.Refptr.Move | include/api/scoped_refptr.h:95-98 | moving transfers the reference and keeps references conserved |
| ScopedRefptr.Refptr.Destroy | include/api/scoped_refptr.h:100-103 | drops the reference; the object goes exactly if it was the only one |
| ScopedRefptr.Refptr.ReleasePointer | include/api/scoped_refptr.h:114-118 | hands the reference to the caller |
| ScopedRefptr.Refptr.AssignRaw | include/api/scoped_refptr.h:120-128 | assigns and conserves references, the object already held included |
| ScopedRefptr.Refptr.MoveAssign | include/api/scoped_refptr.h:139-142 | moves, conserves references, and leaves a self-move unchanged |
| ScopedRefptr.Refptr.Swap | include/api/scoped_refptr.h:150-156 | exchanges the two and conserves references |
| ScopedRefptr.GiveBack | include/api/scoped_refptr.h:109-113 | returning a handed-out reference deletes the object exactly if it was the last |
| ScopedRefptr.Program.Execute | include/api/scoped_refptr.h:76-156 | each operation of a program changes what pointers refer to as its name says, keeps references conserved and forgets no object |
| ScopedRefptr.RunProgram | include/api/scoped_refptr.h:76-156 | after any run of constructions, copies, moves, assignments, swaps, releases and destructions, pointers refer to what the commands say, and each object the run created is deleted if and only if nothing refers to it |
| AtomicRefCount.ReportIsRightIffCountable | include/base/atomic_ref_count.h:31-40 | a decrement that reports the last reference is right if and only if there are at most 2^32 references |
| AtomicRefCount.WrapReportsTooEarly | include/base/atomic_ref_count.h:15-40 | a run from a counter constructed for one reference, with increments an int can hold, in which it reports while 2^32 references are held |
| AtomicRefCount.ReportIsFinal | include/base/atomic_ref_count.h:31-40 | the report is the last operation of any interleaving |
| AtomicRefCount.ExactlyOneReports | include/base/atomic_ref_count.h:31-40 | when all references are gone exactly one decrement has reported it |
| AtomicRefCount.LastSeesAllWrites | include/base/atomic_ref_count.h:31-40 | the decrement that drops the last reference sees every write made to the object, under a release and acquire memory model with relaxed increments |
| AtomicRefCount.AnswersAreRight | include/base/atomic_ref_count.h:31-48 | a decrement reports the last reference if and only if none is left; IsOne() on the newest value answers true if and only if there is one reference |
| AtomicRefCount.OneMeansExclusive | include/base/atomic_ref_count.h:42-48 | a holder that reads one, even by a load that may be stale, holds the only reference and sees every write made to the object |
| AtomicRefCount.LoadsFollowChanges | include/base/atomic_ref_count.h:48 | the loads of a thread follow the order in which the word changed, and its own changes |
| AtomicRefCount.WriteIsNew | include/base/atomic_ref_count.h:31-40 | right after a write to the object only its thread sees it |
| AtomicRefCount.SeenOnlyOnceTold | include/base/atomic_ref_count.h:26-40 | another thread sees a write only after a thread that saw it has decremented or passed a reference on: relaxed increments publish nothing |
| AtomicRefCount.LearnsByAcquiring | include/base/atomic_ref_count.h:26-48 | a thread comes to see a write of others only by a decrement or IsOne() of its own or by being passed a reference: relaxed increments acquire nothing |
| CancelableCallback.Cancelable.Reset | include/base/cancelable_callback.h:89-94 | ends the generation, then stores the new callback |
| CancelableCallback.Cancelable.GetCallback | include/base/cancelable_callback.h:97-103 | a forwarder valid now if and only if a callback is stored, otherwise null |
| CancelableCallback.IssuesForwarderIffStored | include/base/cancelable_callback.h:97-103 | in every history, a forwarder can be run after its issue if and only if a callback was stored, and then reaches that callback |
| CancelableCallback.ResetIsReached | include/base/cancelable_callback.h:89-103 | a callback that was set is what a forwarder issued later reaches, until it is cancelled, replaced or spent |
| CancelableCallback.ForwarderStays | include/base/cancelable_callback.h:120-129 | a forwarder is consumed by running it if it is a once-callback, and by nothing else |
| CancelableCallback.OnceForwarderRunsOnce | include/base/cancelable_callback.h:125-129 | a once-forwarder is run once at most in any history |
| CancelableCallback.Cancelable.RunForwarder | include/base/cancelable_callback.h:120-129 | a valid forwarder reaches the stored callback, a once-callback being spent; an invalid one nothing |
| CancelableCallback.ForwarderRunsWhatItWasIssuedFor | include/base/cancelable_callback.h:96-129 | in every history a forwarder runs the callback wrapped when it was issued if nothing ended that generation since, otherwise nothing |
| CancelableCallback.OnceCallbackRunsOnce | include/base/cancelable_callback.h:125-129 | one once-callback is run by at most one of its forwarders |
| AbsSendTime.TimestampRounds | include/api/rtp_headers.h:99-105 | the timestamp is the time of the reading, rounded down to a microsecond |
| AbsSendTime.ShiftsExtendSign | include/api/rtp_headers.h:110-111 | the two shifts keep the low 24 bits and extend their sign |
| AbsSendTime.DeltaIsExactIffInRange | include/api/rtp_headers.h:106-113 | the difference of two readings is the true one if and only if that is in [-2^23, 2^23) |
| AbsSendTime.ExchangeNegates | include/api/rtp_headers.h:106-113 | exchanging the readings negates the difference if and only if they are not half the range apart |
| AbsSendTime.TicksAddUp | include/api/rtp_headers.h:106-113 | tick differences add up exactly across any number of wraps |
| AbsSendTime.MicrosAddUp | include/api/rtp_headers.h:106-113 | microsecond differences add up to within one microsecond per step |
| AbsSendTime.DeltaMatchesTimestamps | include/api/rtp_headers.h:99-113 | without a wrap a difference agrees with that of the timestamps to within one microsecond |
| Bits.PowerOfTwoTest | include/base/bits.h:29-37 | the test holds of powers of two and nothing else |
| Bits.AlignDownNearest | include/base/bits.h:40-43 | the largest multiple not above the size, for every word width |
| Bits.AlignUpNearest | include/base/bits.h:54-57 | the smallest multiple not below the size if and only if the sum does not overflow, otherwise zero |
| Bits.AlignUpOverflows | include/base/bits.h:54-57 | for every word width, the largest number is rounded to zero |
| Bits.LowBitPosition | include/base/bits.h:78-86 | the lowest bit set |
| Bits.ZeroCounts | include/base/bits.h:78-162 | the zero counts are the numbers of zeros below the lowest and above the highest bit set, and the width for zero |
| Bits.HalvesAgree | include/base/bits.h:104-162 | the zero counts computed in halves equal the whole-word counts |
| Bits.LogarithmBounds | include/base/bits.h:220-231 | both logarithms meet their stated bounds for positive numbers and are -1 for zero |
| BigEndian.FirstByteLeads | include/base/big_endian.h:22-47 | network order: the first byte is the most significant |
| BigEndian.ValueOfDigits | include/base/big_endian.h:22-47 | reading undoes writing, for every byte width |
| BigEndian.DigitsOfValue | include/base/big_endian.h:22-47 | writing undoes reading |
| BigEndian.ReadUnsigned | include/base/big_endian.h:22-35 | the loop computes the number that the bytes denote |
| BigEndian.WriteUnsigned | include/base/big_endian.h:40-47 | the loop stores the number's bytes and nothing else |
| BigEndian.WriteThenRead | include/base/big_endian.h:22-47 | every signed or unsigned value is read back as written |
| BigEndian.ReadThenWrite | include/base/big_endian.h:22-47 | every byte string is left as it was |

## Left out

- Observers checked through weak pointers (`CheckedObserverAdapter`): slots are optional observers, as `UncheckedObserverAdapter` stores them; destroyed observers that are still registered are outside the model.
- The `allow_reentrancy` and sequence checks of `ObserverList`: debug assertions about the calling context.
- `base::LinkedList` of live iterators: its links are modelled by a sequence in list order.
- Argument passing, `BindOnce`, and deletion of a callback list by its removal callback; the removal callback is counted, and what it does is the next operation of the history.
- Nested `Notify()` on a once-list: excluded from its histories, since the source's iterator would leave the list; `NestedOnceNotifyStrands` covers one nested call, whose callbacks do not notify a list with callbacks again.
- CallbackListClass.CallbackList.Notify: covers calls that return, so that what callbacks do is a finite tree; a callback that notifies for ever is not a call that returns.
- The lazy protocol's creator returning null, re-entrant creators, registration of the exit destructor, and `OnExit()`, which the source requires to be called single-threaded; NeedsLazyInstance() and CompleteLazyInstance() have no bodies in the repository and are modelled by their stated contracts.
- Threads without a sequence: every step but `Notify()` names the sequence that makes it.
- Threads moving between sequences: the thread-local slot is that of the sequence, since a dispatch ends on the thread it began on.
- FIFO order of task queues: any queued task may be run next, which allows more interleavings than the source has.
- Destructors of counted objects that release further references, and overflow of the sequential count.
- `WeakPtrFactory` itself: modelled by generations.
- `BigEndianReader`, `BigEndianWriter`, and all declaration-only interfaces: no bodies to model.
- `include/api/proxy.h`, `include/base/bind.h`, `include/base/optional.h`, `include/api/array_view.h` and similar: would only add easy members or compile-time typing.
