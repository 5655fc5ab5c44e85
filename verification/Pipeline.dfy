/**
 The running controller as a labelled transition system: the informer delivers events, the queue's
 waiting loop releases keys, and any number of workers process keys, one atomic action at a time.

 A worker is at one of the `Stage`s of `process`/`handle`; a `Label` names one action together with
 everything nondeterministic about it. A trace is a sequence of labels, legal when each label is
 enabled in the state reached so far.
 */
module Pipeline {
  import opened Wrappers
  import opened WorkQueue

  /** What the cache lookup of an attempt came to; a failed one has been notified. */
  datatype Found = Object | Missing | Failed

  /** What the handler did. */
  datatype Answer = Success | Schedule(next: Time) | Error | Panic

  datatype Stage =
    | Unstarted                        // before the worker's first turn
    | Skipped                          // found the context done then, and never called Process
    | Idle                             // in the loop, before Get
    | Looking(key: Key)                // after Get, before the cache lookup
    | Handling(key: Key, stamp: nat)   // in the handler, with the object of version `stamp`
    | Retrying(key: Key, stamp: nat)   // in Requeue, found within the budget
    | Dropping(key: Key, stamp: nat)   // in Requeue, found at the end of the budget
    | Settling(key: Key)               // handled without error, before Forget
    | Finishing(key: Key)              // before the deferred Done
    | Exited                           // left the loop, because the queue is shut down
  {
    predicate Busy() { !Unstarted? && !Skipped? && !Idle? && !Exited? }

    predicate Holds(k: Key) { Busy() && key == k }
  }

  datatype Label =
    // the environment
    | Change(key: Key, present: bool)                              // the cache takes a new version
    | Accept(key: Key, stamp: nat, delay: int, at: Time)           // an event passed the filter
    | Tick(span: nat)
    | Release(key: Key)                                            // the deadline has passed
    | Cancel                                                       // the context is done
    | Stop                                                         // ShutDown, deferred until then
    // the workers
    | Enter(w: nat)                                                // calls Process
    | Skip(w: nat)                                                 // does not, the context being done
    | Take(w: nat, key: Key)                                       // Get returned a key
    | Exit(w: nat)                                                 // Get returned shutdown
    | Lookup(w: nat, key: Key, stamp: nat, found: Found)
    | Return(w: nat, key: Key, stamp: nat, answer: Answer, at: Time)
    | Retry(w: nat, key: Key, stamp: nat, backoff: int, at: Time)  // AddRateLimited
    | Drop(w: nat, key: Key, stamp: nat)                           // budget used up: Forget, notify
    | Settle(w: nat, key: Key)                                     // Forget
    | Finish(w: nat, key: Key)                                     // Done
  {
    predicate ByWorker() {
      Enter? || Skip? || Take? || Exit? || Lookup? || Return? || Retry? || Drop? || Settle? || Finish?
    }

    predicate HasKey() {
      !Tick? && !Cancel? && !Stop? && !Enter? && !Skip? && !Exit?
    }
  }

  datatype State = State(
    queue: Queue,
    cache: set<Key>,         // keys of the cached objects
    stamps: map<Key, nat>,   // number of changes the cache has seen, by key
    workers: seq<Stage>,
    done: bool,              // the context is done
    now: Time
  ) {
    function Stamp(k: Key): nat {
      if k in stamps then stamps[k] else 0
    }
  }

  /** Values below one start no workers. */
  function Init(workers: int): State {
    State(EMPTY, {}, map[], seq(Max(workers, 0), _ => Unstarted), false, 0)
  }

  predicate Enabled(s: State, l: Label) {
    && (l.ByWorker() ==> l.w < |s.workers|)
    && match l
       case Change(_, _) => true
       // an event tells of a change that the cache has taken already
       case Accept(k, stamp, _, at) => stamp <= s.Stamp(k) && at == s.now
       case Tick(_) => true
       case Release(k) => k in s.queue.waiting && s.queue.waiting[k] <= s.now
       case Cancel => true
       case Stop => s.done
       case Enter(w) => s.workers[w] == Unstarted && !s.done
       case Skip(w) => s.workers[w] == Unstarted && s.done
       case Take(w, k) => s.workers[w] == Idle && s.queue.Get().1 == Item(k)
       case Exit(w) => s.workers[w] == Idle && s.queue.Get().1 == Closed
       case Lookup(w, k, stamp, found) =>
         && s.workers[w] == Looking(k) && stamp == s.Stamp(k)
         && (found.Object? ==> k in s.cache) && (found.Missing? ==> k !in s.cache)
       case Return(w, k, stamp, _, at) => s.workers[w] == Handling(k, stamp) && at == s.now
       case Retry(w, k, stamp, _, at) => s.workers[w] == Retrying(k, stamp) && at == s.now
       case Drop(w, k, stamp) => s.workers[w] == Dropping(k, stamp)
       case Settle(w, k) => s.workers[w] == Settling(k)
       case Finish(w, k) => s.workers[w] == Finishing(k)
  }

  function Max(a: int, b: int): int {
    if a < b then b else a
  }

  /** The effect of a label on the queue. */
  function Effect(q: Queue, l: Label): Queue {
    match l
    case Accept(k, _, delay, at) => if delay > 0 then q.AddAfter(k, delay, at) else q.Add(k)
    case Release(k) => q.Release(k)
    case Stop => q.ShutDown()
    case Take(_, _) => q.Get().0
    case Return(_, k, _, Schedule(next), at) => q.AddAfter(k, Max(next - at, 0), at)
    case Retry(_, k, _, backoff, at) => q.AddRateLimited(k, backoff, at)
    case Drop(_, k, _) => q.Forget(k)
    case Settle(_, k) => q.Forget(k)
    case Finish(_, k) => q.Done(k)
    case _ => q
  }

  /** The stage a worker's label leads to; only an error looks at the failures counted so far. */
  function Next(retries: int, failures: nat, l: Label): Stage
    requires l.ByWorker()
  {
    match l
    case Enter(_) => Idle
    case Skip(_) => Skipped
    case Take(_, k) => Looking(k)
    case Exit(_) => Exited
    case Lookup(_, k, stamp, Object) => Handling(k, stamp)
    case Lookup(_, k, _, Missing) => Settling(k)
    case Lookup(_, k, _, Failed) => Finishing(k)
    case Return(_, k, stamp, Error, _) =>
      if WithinBudget(retries, failures) then Retrying(k, stamp) else Dropping(k, stamp)
    case Return(_, k, _, Panic, _) => Finishing(k)
    case Return(_, k, _, _, _) => Settling(k)
    case Retry(_, k, _, _, _) => Finishing(k)
    case Drop(_, k, _) => Finishing(k)
    case Settle(_, k) => Finishing(k)
    case Finish(_, _) => Idle
  }

  function Apply(retries: int, s: State, l: Label): State
    requires Enabled(s, l)
  {
    State(
      Effect(s.queue, l),
      if !l.Change? then s.cache else if l.present then s.cache + {l.key} else s.cache - {l.key},
      if l.Change? then s.stamps[l.key := s.Stamp(l.key) + 1] else s.stamps,
      if l.ByWorker() then
        s.workers[l.w := Next(retries, if l.Return? then s.queue.Failures(l.key) else 0, l)]
      else s.workers,
      s.done || l.Cancel?,
      if l.Tick? then s.now + l.span else s.now)
  }

  /** The state after `trace`, or none when a label of it is not enabled in its turn. */
  function Run(retries: int, s0: State, trace: seq<Label>): Option<State> {
    if trace == [] then Some(s0)
    else
      match Run(retries, s0, trace[..|trace| - 1])
      case None => None
      case Some(s) =>
        var l := trace[|trace| - 1];
        if Enabled(s, l) then Some(Apply(retries, s, l)) else None
  }

  ghost predicate Distinct(workers: seq<Stage>) {
    forall v, w | 0 <= v < |workers| && 0 <= w < |workers| && v != w && workers[v].Busy() ::
      !workers[w].Holds(workers[v].key)
  }

  /** No two workers hold the same key, and the keys being processed are the keys held. */
  ghost predicate Exclusive(s: State) {
    && Distinct(s.workers)
    && (forall w | 0 <= w < |s.workers| && s.workers[w].Busy() :: s.workers[w].key in s.queue.processing)
    && (forall k | k in s.queue.processing :: exists w :: 0 <= w < |s.workers| && s.workers[w].Holds(k))
  }

  ghost predicate Inv(s: State) {
    s.queue.Inv() && Exclusive(s)
  }
}
