/**
 Two extreme runs. The bound on the work for a key is reached: a handler that always fails is called
 R+1 times. And workers that are too late leave a key behind.
 */
module Tightness {
  import opened Wrappers
  import opened Sequences
  import opened WorkQueue
  import opened Pipeline
  import opened Guarantees
  import opened Shutdown

  /** With one worker, the trace leads to `s`, with the given Gets and additions of `k`. */
  ghost predicate Reaches(retries: int, trace: seq<Label>, s: State, k: Key, gets: nat, adds: nat) {
    && Run(retries, Init(1), trace) == Some(s)
    && Count(trace, TakeOf(k)) == gets && Count(trace, EnqueueOf(k)) == adds
  }

  lemma Extend(retries: int, trace: seq<Label>, s: State, k: Key, gets: nat, adds: nat, l: Label, t: State)
    returns (longer: seq<Label>)
    requires Reaches(retries, trace, s, k, gets, adds) && Enabled(s, l) && Apply(retries, s, l) == t
    ensures Reaches(retries, longer, t, k,
                    gets + (if TakeOf(k)(l) then 1 else 0), adds + if EnqueueOf(k)(l) then 1 else 0)
  {
    longer := trace + [l];
    assert longer[..|trace|] == trace;
  }

  // A handler that always fails

  /** One worker, between attempts, with the key queued again after `n` failures. */
  function Queued(k: Key, n: nat): State {
    State(Queue([k], {k}, {}, map[], if n == 0 then map[] else map[k := n], false), {k}, map[k := 1], [Idle], false, 0)
  }

  /** One worker, with the key taken after `n` failures, at stage `p`. */
  function Held(k: Key, n: nat, p: Stage): State {
    Queued(k, n).(queue := Queue([], {}, {k}, map[], Queued(k, n).queue.failures, false), workers := [p])
  }

  /** One worker in its loop, before or after the cache has taken the first version of the key. */
  function Entering(k: Key, changed: bool): State {
    if changed then State(EMPTY, {k}, map[k := 1], [Idle], false, 0) else State(EMPTY, {}, map[], [Idle], false, 0)
  }

  lemma FirstEventSteps(retries: int, k: Key)
    ensures Apply(retries, Init(1), Enter(0)) == Entering(k, false)
    ensures Apply(retries, Entering(k, false), Change(k, true)) == Entering(k, true)
    ensures Apply(retries, Entering(k, true), Accept(k, 1, 0, 0)) == Queued(k, 0)
  {
    assert Init(1).workers == [Unstarted] && [Unstarted][0 := Idle] == [Idle];
  }

  lemma FirstEvent(retries: int, k: Key) returns (trace: seq<Label>)
    ensures Reaches(retries, trace, Queued(k, 0), k, 0, 1)
  {
    FirstEventSteps(retries, k);
    trace := Extend(retries, [], Init(1), k, 0, 0, Enter(0), Entering(k, false));
    trace := Extend(retries, trace, Entering(k, false), k, 0, 0, Change(k, true), Entering(k, true));
    trace := Extend(retries, trace, Entering(k, true), k, 0, 0, Accept(k, 1, 0, 0), Queued(k, 0));
  }

  lemma AttemptSteps(retries: int, k: Key, n: nat)
    ensures Enabled(Queued(k, n), Take(0, k))
    ensures Apply(retries, Queued(k, n), Take(0, k)) == Held(k, n, Looking(k))
    ensures Apply(retries, Held(k, n, Looking(k)), Lookup(0, k, 1, Object)) == Held(k, n, Handling(k, 1))
    ensures Apply(retries, Held(k, n, Handling(k, 1)), Return(0, k, 1, Error, 0)) ==
            Held(k, n, if WithinBudget(retries, n) then Retrying(k, 1) else Dropping(k, 1))
  {
    assert [Idle][0 := Looking(k)] == [Looking(k)];
  }

  /** A Get and an attempt, up to the return of the handler with an error. */
  lemma AttemptUptoError(retries: int, before: seq<Label>, k: Key, n: nat, gets: nat) returns (trace: seq<Label>)
    requires Reaches(retries, before, Queued(k, n), k, gets, 1)
    ensures Reaches(retries, trace, Held(k, n, if WithinBudget(retries, n) then Retrying(k, 1) else Dropping(k, 1)),
                    k, gets + 1, 1)
  {
    var looking, handling := Held(k, n, Looking(k)), Held(k, n, Handling(k, 1));
    AttemptSteps(retries, k, n);
    trace := Extend(retries, before, Queued(k, n), k, gets, 1, Take(0, k), looking);
    trace := Extend(retries, trace, looking, k, gets + 1, 1, Lookup(0, k, 1, Object), handling);
    trace := Extend(retries, trace, handling, k, gets + 1, 1, Return(0, k, 1, Error, 0),
                    Held(k, n, if WithinBudget(retries, n) then Retrying(k, 1) else Dropping(k, 1)));
  }

  /** The key counted and added again, before the worker is done with it. */
  function Readded(k: Key, n: nat): State {
    Held(k, n, Finishing(k)).(queue := Queue([], {k}, {k}, map[], map[k := n + 1], false))
  }

  lemma RetrySteps(retries: int, k: Key, n: nat)
    ensures Apply(retries, Held(k, n, Retrying(k, 1)), Retry(0, k, 1, 0, 0)) == Readded(k, n)
    ensures Apply(retries, Readded(k, n), Finish(0, k)) == Queued(k, n + 1)
  {
    assert Held(k, n, Retrying(k, 1)).queue.failures[k := n + 1] == map[k := n + 1];
  }

  lemma RetryAtOnce(retries: int, before: seq<Label>, k: Key, n: nat, gets: nat) returns (trace: seq<Label>)
    requires Reaches(retries, before, Held(k, n, Retrying(k, 1)), k, gets, 1)
    ensures Reaches(retries, trace, Queued(k, n + 1), k, gets, 1)
  {
    var t := Readded(k, n);
    RetrySteps(retries, k, n);
    trace := Extend(retries, before, Held(k, n, Retrying(k, 1)), k, gets, 1, Retry(0, k, 1, 0, 0), t);
    trace := Extend(retries, trace, t, k, gets, 1, Finish(0, k), Queued(k, n + 1));
  }

  /** After `n` attempts that failed and were retried at once. */
  lemma {:induction false} FailingRun(retries: nat, k: Key, n: nat) returns (trace: seq<Label>)
    requires n <= retries
    ensures Reaches(retries, trace, Queued(k, n), k, n, 1)
  {
    if n == 0 {
      trace := FirstEvent(retries, k);
    } else {
      trace := FailingRun(retries, k, n - 1);
      trace := AttemptUptoError(retries, trace, k, n - 1, n - 1);
      trace := RetryAtOnce(retries, trace, k, n - 1, n);
    }
  }

  /** For every number of retries, some run takes a key R+1 times for a single event. */
  lemma BoundIsReached(retries: nat, k: Key) returns (trace: seq<Label>)
    ensures Run(retries, Init(1), trace).Some?
    ensures Count(trace, EnqueueOf(k)) == 1 && Count(trace, TakeOf(k)) == retries + 1
  {
    trace := FailingRun(retries, k, retries);
    trace := AttemptUptoError(retries, trace, k, retries, retries);
  }

  // A worker that is too late

  /** The worker at stage `p`, with the key queued. */
  function Late(k: Key, p: Stage, done: bool): State {
    State(Queue([k], {k}, {}, map[], map[], false), {}, map[], [p], done, 0)
  }

  lemma LateSteps(retries: int, k: Key)
    ensures Apply(retries, Init(1), Accept(k, 0, 0, 0)) == Late(k, Unstarted, false)
    ensures Apply(retries, Late(k, Unstarted, false), Cancel) == Late(k, Unstarted, true)
    ensures Apply(retries, Late(k, Unstarted, true), Skip(0)) == Late(k, Skipped, true)
  {
    assert Init(1).workers == [Unstarted] && [Unstarted][0 := Skipped] == [Skipped];
  }

  /** A worker whose first turn comes after the context is done leaves an accepted event unhandled. */
  lemma LateWorkerLeavesKey(retries: int, k: Key) returns (trace: seq<Label>, s: State)
    ensures Run(retries, Init(1), trace) == Some(s) && s.queue.down && AllLeft(s)
    ensures Count(trace, EnqueueOf(k)) == 1 && Count(trace, TakeOf(k)) == 0 && k in s.queue.dirty
  {
    LateSteps(retries, k);
    var late, done, skipped := Late(k, Unstarted, false), Late(k, Unstarted, true), Late(k, Skipped, true);
    s := skipped.(queue := skipped.queue.ShutDown());
    trace := Extend(retries, [], Init(1), k, 0, 0, Accept(k, 0, 0, 0), late);
    trace := Extend(retries, trace, late, k, 0, 1, Cancel, done);
    trace := Extend(retries, trace, done, k, 0, 1, Skip(0), skipped);
    trace := Extend(retries, trace, skipped, k, 0, 1, Stop, s);
  }
}
