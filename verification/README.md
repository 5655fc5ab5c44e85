# Controller framework: model and proofs

A Dafny model of the controller framework of go-kube: the path of an event from the informer through
the filter and the work queue to the workers, the lookup of owned resources in the cache, the tracker
of a controller's own writes, and the smaller parts around them (delays, start-up, errors).

| file | what it models |
|---|---|
| `WorkQueue.dfy` | the work queue (as a value and as an object) and `RetryQueue` |
| `QueueRuns.dfy` | runs of queue operations: the retry budget, `MonitorQueue` |
| `Pipeline.dfy` | events, queue, cache and any number of workers as a labelled transition system |
| `KeyView.dfy` | the pipeline projected onto a single key, a small machine |
| `Guarantees.dfy` | what holds of every key in every run of the pipeline |
| `Shutdown.dfy` | draining and termination after shutdown |
| `Progress.dfy` | bounded work and no deadlock in finite runs, before the context is done |
| `Liveness.dfy` | every accepted event is concluded in the end, in infinite fair runs |
| `Tightness.dfy` | a run that reaches the bound on the work, and one with a worker that is too late |
| `Processor.dfy` | `ResourceEventHandler` and `Processor` as objects, proved to perform the pipeline's labels |
| `Filters.dfy`, `Objects.dfy`, `Delays.dfy` | filters, delivered objects and keys, debounce and jitter |
| `Tracker.dfy` | `SelfWriteTracker` and its histories of calls |
| `Listing.dfy` | the indexed cache and the controller's `List` and `ListByIndex` |
| `Runner.dfy`, `ControllerRun.dfy` | the barrier between `Init` and `Run`; the loop over the processors |
| `Errors.dfy` | error trees and matching |
| `Sequences.dfy`, `Wrappers.dfy` | counting and summing over sequences; the option type |

## How the pieces fit

The queue is a value (`WorkQueue.Queue`) with one function for each operation. The queue objects
update fields, and each method is proved to do to the value what the function says. The pipeline uses
the same functions: a *label* is one atomic action of the environment or of a worker, with everything
nondeterministic about it (what the cache answers, what the handler does, back-off, time), and a
*trace* is a sequence of labels. `Requeue` is finer than one action here: the look at the counter and
the rate-limited add (or the forget) are two, with any other worker's actions in between. Counting
functions (`Count`, `ErrorsInARow`) and conditions on positions speak of the trace alone, so they are
independent of how the state is kept.

A key does not notice the others: `KeyView.Projection` shows that every run, seen from one key, is a
run of a small machine with a slot of the queue, a stage and a version. The guarantees are proved for
that machine by induction over the trace and then hold for every key of the pipeline.
`Processor.ProcessIsRun` closes the circle: the sequence of labels that the sequential code of
`process` is proved to perform is a legal run of one worker.

The life of a worker in the pipeline is that of its goroutine: it is unstarted until its first turn,
enters its loop then, or skips it if the context is done already, and leaves the loop when the queue is
shut down and empty. `ControllerRun` has the same steps for several processors, without the queues.

`RetryQueue` hands every operation but `Requeue` on to the work queue; the table names the methods of
the work queue only.

## What the code does other than its comments say

- The comment at `controller/processor.go:171-173` says that an item whose handling fails or panics is
  reported to the handler and requeued, and the one at `controller/processor.go:198-200` again that
  failures are reported. The code does never both. It requeues only when the handler returns an error
  within the budget, and then reports nothing; panics, failed lookups, type errors and drops are reported
  and not requeued. `PendingAfterIff` and `HandleEffects` give the exact conditions, and
  `PanicIsNotRetried` an input on which the comment fails.
- The comment at `controller/processor.go:161-162` says that the loop of a worker runs until the context
  is done or the queue is shut down. It does not look at the context, and goes on after shutdown until the
  queue is empty: `ShutdownDrains`, and the contract of `Processor.Process` for a worker alone.
- The comment at `controller/controller.go:248-249` says that `Run` creates the workers that process
  events, and handlers can be added at will. `Run` calls the blocking `Run` of one processor after the
  other, so that the second starts when the context is done. `ControllerRun.WorksIff`: exactly the first
  processor ever processes events, and it only with at least one worker. By `ShutdownDrains`, the keys in
  the queues of the others stay there.
- The tracker's doc calls namespace and name a unique key. It is one for namespaces without a slash;
  `KeysCollideIff` says when two resources share a key, `SlashInterferes` shows it.

No comment is against it, but it may surprise a handler: the notification of a dropped event formats the
rejection as text and wraps the handler's error only (`controller/processor.go:227-228`), so that it does
not match `ErrMaxRetries` unless the handler's own error does (`NoticeHidesMaxRetries`).

## Assumptions

- The cache takes a change before the event that tells of it is delivered, and every stored object has
  metadata (the informer derives its key from it).
- `NumRequeues` is the number of rate-limited adds since the last `Forget`; back-offs are arbitrary.
- The worker loop of apimachinery (`wait.Until`) calls its function at once unless the stop channel is
  closed, and not again once it is. A context that is done stays done.
- Each operation of client-go's queue is atomic, and so is each operation of `MonitorQueue`.
- Clock values are integers; the clock does not go back, where a statement says so or the pipeline moves
  it forward. Durations do not overflow, except in the jitter, where 64 bits are modelled.

## Model

| member | source | states |
|---|---|---|
| WorkQueue.DoneKeepsInvIff | controller/queue.go:40-43 | the queue stays free of duplicates, with each dirty key queued unless it is processed, exactly when Done is called for a key in processing or not queued; a key re-added meanwhile is queued again |
| WorkQueue.RateLimitingQueue.Add | controller/queue.go:28-29 | adds a key once while it is dirty, holds it back while it is processed, refuses it after shutdown |
| WorkQueue.RateLimitingQueue.AddAfter | controller/queue.go:30-33 | repeated delays keep the earliest deadline; no delay adds at once |
| WorkQueue.RateLimitingQueue.AddRateLimited | controller/queue.go:34-36 | counts a failure and adds after the back-off |
| WorkQueue.RateLimitingQueue.Get | controller/queue.go:39-41 | hands out the first key, or reports shutdown on an empty queue, or blocks |
| WorkQueue.RateLimitingQueue.Done | controller/queue.go:42-43 | releases the key and queues it again if it became dirty; called for any key, the queue is well formed afterwards exactly if the key was in processing or not dirty |
| WorkQueue.RetryQueue.Requeue | controller/queue.go:120-130 | re-adds and counts within the budget, otherwise forgets and rejects; negative retries never reject |
| QueueRuns.RetryBudget | controller/queue.go:118-135 | in every run, the n-th requeue of a key since its last external Forget is rejected exactly when retries is not negative and retries+1 divides n; the counter never exceeds retries; other keys do not matter |
| QueueRuns.ProcessedUntilDone | controller/queue.go:39-45 | over every run, a key is processed from the Get that hands it out to its Done, and the queue is down from its shutdown on |
| QueueRuns.MonitorIsTransparent | controller/queue.go:153-215 | over every run, the reference `Observe` leaves queue and replies (Get, Requeue, Len) as the bare queue has them; it is built on the bare operations, and the content lies in the `MonitorQueue` methods below, each proved to do what `Observe` says |
| QueueRuns.GetEvents | controller/queue.go:175-215 | a Get records nothing exactly when every enqueuing of its key has been followed by a Get, and otherwise one event with the time of the first enqueuing since, rejected requeues included |
| QueueRuns.AddEvents | controller/queue.go:175-199 | every enqueuing call is recorded once, in order, as an add or a requeue, rejected ones included, and no other call is |
| QueueRuns.MonitorQueue.Add | controller/queue.go:175-179 | keeps the first time, records an add, then adds as the inner queue does |
| QueueRuns.MonitorQueue.AddAfter | controller/queue.go:184-190 | keeps the first time, records an add, then adds with the delay |
| QueueRuns.MonitorQueue.Requeue | controller/queue.go:193-199 | keeps the first time and records even when the inner queue rejects |
| QueueRuns.MonitorQueue.Get | controller/queue.go:203-215 | takes and records the time of the key, if there is one |
| KeyView.StepKeepsInv | controller/processor.go:174-241 | every action keeps: queue without duplicates, dirty keys queued unless processed, processed keys held by exactly one worker |
| KeyView.StepProjection | controller/processor.go:174-241 | every action is, for every key, an action of the single-key machine |
| KeyView.Projection | controller/processor.go:147-241 | every run of any number of workers over any keys is, seen from any key, a run of the single-key machine |
| Guarantees.ExclusiveHandling | controller/processor.go:174-196 | in every reachable state no two workers hold a key, and each Get of a key has had exactly one Done or is held by a worker |
| Guarantees.BoundedWork | controller/queue.go:120-130 | with retries >= 0, a key is taken at most (retries+1) times the number of Add and AddAfter calls for it, in every run |
| Tightness.BoundIsReached | controller/processor.go:224-231 | for every number of retries there is a run that takes a key retries+1 times for one event |
| Tightness.LateWorkerLeavesKey | controller/processor.go:151-155 | an accepted event that no worker takes, because the first turn of the worker comes after the context is done |
| Guarantees.FailureAccounting | controller/processor.go:186-241 | the counter equals the handler errors since the last success, missing object or drop, panics and failed lookups not counted; a key is dropped exactly at error retries+1 |
| Guarantees.DeadlineKept | controller/processor.go:87-95 | before shutdown, a key enqueued by an event, a schedule or a requeue is ready by the deadline promised then, whatever follows, unless it has been taken since |
| Guarantees.NeverEarly | controller/queue.go:30-36 | in every run, a key is handed out, or ready, no more often than it has been enqueued for a time not after the clock: no debounce, jitter, schedule or back-off is cut short |
| Guarantees.NoEventLost | controller/processor.go:70-96 | before shutdown, the key of each accepted event is pending, or in an attempt that reads the event's version or a later one, or such an attempt came later to an end without error or with a notification |
| Guarantees.QuietMeansConcluded | controller/processor.go:163-169 | when nothing is pending and no worker is busy, each accepted event has been concluded |
| Progress.ActionsBounded | controller/processor.go:174-241 | with retries >= 0, the workers' actions on a key and its releases from waiting number at most 7*(retries+1) for each Add or AddAfter of it, in every run |
| Progress.UnquietCanAdvance | controller/processor.go:147-169 | with a worker, and before the context is done, a run with a key pending or a worker busy can go on with an action of a worker or, once its deadline has passed, the release of a key |
| Liveness.EveryEventConcluded | controller/processor.go:70-241 | with retries >= 0, a worker and the context never done, every accepted event is concluded in every infinite run in which workers and waiting loop are not held up for ever, however many events keep coming for its key or for others |
| Liveness.QueuedIsTaken | controller/queue.go:39-41 | in such a run, a queued key is taken, whatever else is added |
| Liveness.LeftStep | controller/processor.go:174-241 | for an event not yet concluded, no action of anybody adds to what is left to do, and each action of a worker on its key takes from it |
| Liveness.OpenRunExists | controller/processor.go:147-169 | there are such runs, with an event in them |
| Progress.EventuallyConcluded | controller/processor.go:70-241 | with a worker, retries >= 0 and the context not done, the actions of a run are bounded by its Adds and AddAfters over all keys, and when none is possible any more, every accepted event has been concluded: with finitely many events and schedules, every run that goes on as long as it can concludes them all, without a fairness assumption |
| Guarantees.NoOvertaking | controller/queue.go:40-41 | first in, first out, in every run: a queued key is taken after exactly as many Gets of other keys as are queued before it |
| Shutdown.ShutdownDrains | controller/processor.go:147-169 | in every run shut down, the workers take at most the keys dirty then, in at most 5*(dirty keys + workers) actions, and when none can act, all have left their loops or never enter them; each dirty key has then been taken exactly once if some worker had called Process before the context was done, and otherwise none has, and all stay in the queue |
| Shutdown.DownTakes | controller/queue.go:148-151 | after shutdown a key is taken once if it was dirty and is not any more, and never otherwise |
| Shutdown.WorkerCanAct | controller/processor.go:151-182 | after shutdown, a worker that has not left its loop or skipped it can always act |
| Processor.ResourceEventHandler.OnAdd | controller/processor.go:53-55 | an add that every filter given passes has the key of its object ready after the delay, or by an earlier deadline, and changes nothing else; without a key it is notified, and against a filter nothing changes |
| Processor.ResourceEventHandler.OnUpdate | controller/processor.go:58-60 | the same of an update, judged by the filters with the previous object |
| Processor.ResourceEventHandler.OnDelete | controller/processor.go:63-66 | the same of a deletion, under the tombstone's key if there is one |
| Processor.ResourceEventHandler.Enqueue | controller/processor.go:70-96 | the same of any event, told from its key, the filters given, the metadata and the delays; on the queue it acts as its label in the pipeline |
| Processor.ChosenDelayIs | controller/processor.go:87-107 | the delay of an event is the jitter of its key, in the window, for an update with metadata before and after in the same version, and with a window; in every other case the debounce |
| Filters.VersionFilterDropsIff | controller/filter.go:99-113 | the filter drops exactly the updates with metadata before and after in the same version, and passes all adds and deletes |
| Processor.VersionFilterDisablesJitter | controller/processor.go:82-107 | with that filter anywhere in the chain, no event that passes is jittered |
| Processor.Processor.Handle | controller/processor.go:201-259 | on every path (failed lookup, missing, success, schedule, error, panic) the queue and the notifications are those of the labels, and the result says whether it was a success |
| Processor.Processor.ProcessItem | controller/processor.go:174-196 | a key handed out is forgotten on success and done on every path, as the labels of a worker say |
| Processor.Processor.Process | controller/processor.go:163-169 | the loop takes turn after turn and ends only on an empty queue, by leaving it if the queue is down; after shutdown a lone worker leaves exactly when it has had a turn for each dirty key and one more, and leaves none |
| Processor.ProcessIsRun | controller/processor.go:174-241 | the labels of `process` are a legal run from the lookup to the one Done that ends it, and touch no other worker |
| Processor.HandleEffects | controller/processor.go:201-259 | what one handling comes to, case by case, with the notification of each failure and of each drop |
| Processor.PendingAfterIff | controller/processor.go:171-241 | one attempt leaves its key pending exactly after a schedule or an error within the budget; panics and failed lookups keep the counter |
| Processor.PanicIsNotRetried | controller/processor.go:171-173 | an input on which the comment fails: after a panic the queue is empty |
| Filters.AllPass | controller/filter.go:46-56 | `And` and `combine` pass exactly what every filter present passes |
| Filters.AnyPasses | controller/filter.go:61-71 | `Or` passes exactly what some filter present passes |
| Filters.AndFlattens | controller/processor.go:44-50 | a combined chain inside a chain is one long chain |
| Filters.DeMorgan | controller/filter.go:46-79 | negating a chain is the alternative of the negated filters, and the other way round, absent ones staying absent |
| Filters.NotIsComplement | controller/filter.go:73-79 | a negated filter passes exactly what the filter drops, twice negated it is the filter, and an absent one stays a no-op in a chain |
| Objects.EventsShareKey | controller/processor.go:53-66 | adds, updates, deletions and late deletions by tombstone of a resource all have the key the cache has it under; every other object has none |
| Objects.KeyRoundTripIff | controller/processor.go:53-66 | namespace and name can be read off a key exactly when they have no slash that misleads |
| Objects.TombstonesAreTransparent | controller/processor.go:109-120 | the resource is found in any nest of tombstones, and none where none is |
| Objects.Utf8IsInjective | controller/controller.go:96-98 | the bytes that are hashed tell the key |
| Delays.Delay.Jitter | controller/controller.go:91-102 | the loop computes the masked FNV-1a hash of the key modulo the window |
| Delays.Delay.Choose | controller/controller.go:106-112 | jitter for a re-sync with a window, the debounce otherwise |
| Delays.JitterInWindow | controller/controller.go:88-102 | the jitter is the hash without its sign bit modulo the window, for every key in [0, window), and 0 without a window |
| Delays.PublishedHashes | controller/controller.go:96-101 | the hash is the published one on the empty string, "a" and "ab" |
| Delays.XorBits | controller/controller.go:96-101 | the exclusive or of the hash, bit by bit |
| Delays.HashSeparates | controller/controller.go:96-101 | keys that differ in a single byte, wherever it is, have different 64-bit hashes |
| Delays.KeysSeparate | controller/controller.go:88-102 | keys that differ in one ASCII character have different 64-bit hashes |
| Tracker.SelfWriteTracker.constructor | controller/filter.go:163-172 | starts empty, with the default for a non-positive time to live |
| Tracker.SelfWriteTracker.Mark | controller/filter.go:177-192 | replaces the entry of the key |
| Tracker.SelfWriteTracker.Filter | controller/filter.go:202-258 | deletes clear, adds pass, an update is dropped and its entry consumed on a fresh match, an expired entry is evicted |
| Tracker.EntriesAreLive | controller/filter.go:234-249 | an entry is that of the latest mark not reset since; a mark without entry has expired, so that eviction cannot be observed |
| Tracker.DropsIff | controller/filter.go:194-258 | over every history with a monotone clock, an event is dropped exactly when it is an update whose key was last reset by a mark of the same version, at most the time to live ago |
| Tracker.SuppressedIff | controller/filter.go:177-258 | the same of calls with objects, told from their metadata: an update is dropped exactly when the last mark of an object with its namespace and name, after each delete and each echo dropped, has its version and is at most the time to live old |
| Tracker.DropsBoundedByMarks | controller/filter.go:194-258 | dropped updates of a key never outnumber its marks |
| Tracker.OnlyLastEchoDropped | controller/filter.go:188-192 | of the echoes of writes to a resource marked in a row, exactly the last is dropped, whatever calls about other resources come in between |
| Tracker.KeysCollideIff | controller/filter.go:182 | when two resources share a tracking key |
| Tracker.KeyIsInjective | controller/filter.go:174-182 | without slashes in namespaces, the key is unique |
| Tracker.ResourcesDoNotInterfere | controller/filter.go:174-258 | without slashes, each resource is answered as if it were tracked alone |
| Tracker.SlashInterferes | controller/filter.go:182 | with a slash, the mark of one resource drops the update of another |
| Listing.OwnerKeys | controller/indexer.go:39-54 | the keys of all owners in order, an error without metadata |
| Listing.OwnerIndexersCover | controller/indexer.go:17-36 | any part of `OwnerIndexers` has each resource under each of its owners, with any other indexes beside it |
| Listing.OwnerValuesIff | controller/indexer.go:25-54 | a resource has exactly the uids, or the names, of its owners as values |
| Listing.Indexer.Put | controller/controller.go:157-179 | the cache stores the object, and every index stays exact |
| Listing.Indexer.Delete | controller/controller.go:157-179 | the cache drops the object, and every index stays exact |
| Listing.Indexer.ByIndex | controller/controller.go:302-320 | each object under the value once, none for an index that is not registered |
| Listing.Controller.Lookup | controller/controller.go:302-320 | candidates without duplicates that contain, with proper owner indexes, all objects owned by the name and uid |
| Listing.Controller.Owner | controller/controller.go:342-364 | the namespace fits, and some owner reference matches unless name and uid are empty |
| Listing.Controller.List | controller/controller.go:271-296 | the result is, as a multiset and without duplicates, that of scanning the whole cache for owned objects of the type, whichever owner indexes are registered; with any other index under their names still part of it |
| Listing.ScanOfNamespace | controller/controller.go:271-276 | with a namespace, the list is the part of the list without one that is in it |
| Listing.ScanOfOwner | controller/controller.go:271-276 | without name and uid, the list is all of the type that has metadata; with one of them alone, it is what the owner index has under it, so that it agrees with `ListByIndex` |
| Listing.ScanOfBoth | controller/controller.go:355-360 | with name and uid, one single owner reference has both |
| Listing.Controller.ListByIndex | controller/controller.go:322-339 | exactly the objects of the type under the value, nothing for an index that is not registered |
| Runner.InitBarrier | controller/runner.go:75-95 | no Run starts before every Init has returned, and each is started at most once, in every interleaving |
| Runner.ProgressIsBounded | controller/runner.go:78-95 | at most 4n+1 actions other than reads of the error channel |
| Runner.AllRunsStartIff | controller/runner.go:78-95 | all Runs can be started exactly when no Init waits for its cache for ever and the error channel is read or has room for each failing Init; otherwise none ever starts |
| ControllerRun.OnlyFirstProcesses | controller/controller.go:250-254 | no run has a worker of a later processor call Process, nor any with less than one worker |
| ControllerRun.WorksIff | controller/controller.go:248-254 | a processor of a controller ever processes events exactly if it is the first and there is at least one worker |
| Errors.MatchesIffReachable | errors/errors.go:119-127 | an error matches exactly the errors it unwraps to, in any number of steps, itself included |
| Errors.MatchesTransitive | errors/errors.go:124-127 | matching is transitive |
| Errors.ErrorMatchesIff | errors/errors.go:119-127 | an `Error` matches itself and exactly what the error it wraps matches |
| Errors.NewMatchesIff | errors/errors.go:144-152 | a new error matches itself and exactly what its base or a wrapped error matches |
| Errors.WrapMatchesIff | errors/errors.go:154-162 | nil exactly without a final error; otherwise matches itself and what its base, a wrapped error or the final error matches |
| Errors.DropNoticeMatchesIff | controller/processor.go:225-229 | apart from the controller's own errors, the notification of a drop matches exactly what the handler's error matches |
| Errors.NoticeHidesMaxRetries | controller/processor.go:225-229 | the notification of a drop matches `ErrMaxRetries` exactly when the handler's error does; it does not for any plain error |

## Left out

- Processor.Processor.Process: the loop takes one attempt per turn from a finite script, and a blocked Get ends it, because the method stands for one worker without the environment that would wake it; the pipeline has the interleaved form without a bound.
- Processor.Processor.ProcessItem: one clock value serves the whole attempt; in the pipeline time may pass between any two actions.
- Errors.MatchesIffReachable: covers `Is` and `Unwrap`; `As` follows the same tree and is not modelled.
- `controller/recorder.go`: metrics, kept only as the log of what the queue reports; the processor's `DoneEvent` is not modelled.
- The processor uses the bare `RetryQueue`; that a monitored one behaves the same is `MonitorIsTransparent`.
- `AddHandler`: the wiring of handler, queue and processor.
- `controller/retriever.go`, `SetTransform`, `StripManagedFields`, `Get` of the controller: thin wrappers.
- `LeaderRunner` and its configuration: the election is client-go's.
- `controller/handler.go`: logging and a type check; the handler is an arbitrary choice of result.
- The informer, list and watch, and the cache synchronisation: replaced by the assumptions above; in `Runner`, the wait of an `Init` ends in one of three ways.
- The Go scheduler, handlers that never return, and a clock that stands still: `EveryEventConcluded` assumes (`Fair`) that a worker that can act does so sometime, that a key whose deadline has passed is released sometime, and that time goes on; `EventuallyConcluded` assumes nothing, and shows that the actions are bounded and one is possible, not that it is chosen.
- `GenerationChanged`, `Op.String`, and the Kubernetes error predicates: settled by a single branch or foreign.
- Stateful filters inside a chain: combinators are modelled on filters that only answer; the tracker is modelled by itself.
- The text of error messages and the stack captured on a panic.
