/**
 What every run of the pipeline guarantees for every key: each Get has its Done, the work is
 bounded, failures are counted right, deadlines are kept, and no accepted event is lost.

 The counts and histories are functions of the trace alone. Each guarantee is proved for the small
 machine of `KeyView` and carried over to the pipeline by `Projection`.
 */
module Guarantees {
  import opened Wrappers
  import opened Sequences
  import opened WorkQueue
  import opened Pipeline
  import opened KeyView

  function IsTake(): Label -> bool {
    (l: Label) => l.Take?
  }

  function TakeOf(k: Key): Label -> bool {
    (l: Label) => l.Take? && l.key == k
  }

  function FinishOf(k: Key): Label -> bool {
    (l: Label) => l.Finish? && l.key == k
  }

  /** A call to Add or AddAfter: an accepted event, or a handler that asks to be called again. */
  predicate Enqueues(l: Label) {
    l.Accept? || (l.Return? && l.answer.Schedule?)
  }

  function EnqueueOf(k: Key): Label -> bool {
    (l: Label) => Enqueues(l) && l.key == k
  }

  // The small machine

  /** What the stage of a key says about its slot. */
  predicate Coherent(retries: int, k: Key, v: View) {
    && (v.stage == Idle || v.stage.Holds(k))
    && (v.slot.held <==> v.stage != Idle)
    && (v.stage.Retrying? ==> WithinBudget(retries, v.slot.failures))
    && (v.stage.Dropping? ==> !WithinBudget(retries, v.slot.failures))
    && (retries >= 0 ==> v.slot.failures <= retries)
  }

  lemma {:induction false} CoherentRun(retries: int, k: Key, trace: seq<Label>, v: View)
    requires Follow(retries, k, START, trace) == Some(v)
    ensures Coherent(retries, k, v)
    ensures Count(trace, TakeOf(k)) == Count(trace, FinishOf(k)) + if v.stage == Idle then 0 else 1
  {
    if trace != [] {
      var before := trace[..|trace| - 1];
      CoherentRun(retries, k, before, Follow(retries, k, START, before).value);
    }
  }

  // Bounded work

  /** Gets still to come, at most: R+1 for each pending copy, R for a held one, less the failures counted. */
  function Potential(retries: nat, v: View): int {
    var unresolved := v.stage != Idle && !v.stage.Finishing?;
    if !v.slot.Pending() && !unresolved then 0
    else
      (if v.slot.dirty then retries + 1 else 0)
      + (if v.slot.due.Some? then retries + 1 else 0)
      + (if unresolved then retries else 0)
      - v.slot.failures
  }

  lemma PotentialStep(retries: nat, k: Key, v: View, l: Label)
    requires Coherent(retries, k, v) && Able(k, v, l)
    ensures Potential(retries, v) >= 0
    ensures Potential(retries, Step(retries, k, v, l)) + (if TakeOf(k)(l) then 1 else 0)
            <= Potential(retries, v) + if EnqueueOf(k)(l) then retries + 1 else 0
  {
  }

  /** R+1 Gets for each of `n` additions. */
  function Credit(retries: nat, n: nat): nat {
    if n == 0 then 0 else Credit(retries, n - 1) + retries + 1
  }

  lemma CreditIsProduct(retries: nat, n: nat)
    ensures Credit(retries, n) == (retries + 1) * n
  {
  }

  lemma {:induction false} PotentialRun(retries: nat, k: Key, trace: seq<Label>, v: View)
    requires Follow(retries, k, START, trace) == Some(v)
    ensures Coherent(retries, k, v) && Potential(retries, v) >= 0
    ensures Count(trace, TakeOf(k)) + Potential(retries, v) <= Credit(retries, Count(trace, EnqueueOf(k)))
  {
    CoherentRun(retries, k, trace, v);
    if trace != [] {
      var before, l := trace[..|trace| - 1], trace[|trace| - 1];
      var u := Follow(retries, k, START, before).value;
      PotentialRun(retries, k, before, u);
      PotentialStep(retries, k, u, l);
    }
  }

  // Failures

  /** The handler errors for `k` since its last success, missing object or drop. */
  function ErrorsInARow(trace: seq<Label>, k: Key): nat {
    if trace == [] then 0
    else
      var n, l := ErrorsInARow(trace[..|trace| - 1], k), trace[|trace| - 1];
      if !About(l, k) then n
      else if l.Return? && l.answer.Error? then n + 1
      else if (l.Return? && !l.answer.Panic?) || (l.Lookup? && l.found.Missing?) || l.Drop? then 0
      else n
  }

  lemma {:induction false} FailuresRun(retries: int, k: Key, trace: seq<Label>, v: View)
    requires Follow(retries, k, START, trace) == Some(v)
    ensures if v.stage.Settling? then ErrorsInARow(trace, k) == 0
            else if v.stage.Retrying? || v.stage.Dropping? then ErrorsInARow(trace, k) == v.slot.failures + 1
            else ErrorsInARow(trace, k) == v.slot.failures
  {
    if trace != [] {
      var before := trace[..|trace| - 1];
      FailuresRun(retries, k, before, Follow(retries, k, START, before).value);
    }
  }

  // Deadlines

  /** The time by which an enqueuing label promises its key to be ready. */
  function Promise(l: Label): Option<Time> {
    match l
    case Accept(_, _, delay, at) => Some(at + Max(delay, 0))
    case Return(_, _, _, Schedule(next), at) => Some(Max(next, at))
    case Retry(_, _, _, backoff, at) => Some(at + Max(backoff, 0))
    case _ => None
  }

  predicate Kept(x: Slot, deadline: Time) {
    x.dirty || (x.due.Some? && x.due.value <= deadline)
  }

  lemma {:induction false} PromiseRun(retries: int, k: Key, trace: seq<Label>, v: View, i: nat)
    requires Follow(retries, k, START, trace) == Some(v) && !v.slot.down
    requires i < |trace| && About(trace[i], k) && Promise(trace[i]).Some?
    ensures Kept(v.slot, Promise(trace[i]).value) || exists j :: i < j < |trace| && TakeOf(k)(trace[j])
  {
    var n := |trace| - 1;
    if i < n && !TakeOf(k)(trace[n]) {
      PromiseRun(retries, k, trace[..n], Follow(retries, k, START, trace[..n]).value, i);
      if j :| i < j < n && TakeOf(k)(trace[..n][j]) {
        assert TakeOf(k)(trace[j]);
      }
    }
  }

  // Never early

  /** The label enqueues the key for a time that is not after `time`. */
  function PromisedBy(k: Key, time: Time): Label -> bool {
    (l: Label) => About(l, k) && Promise(l).Some? && Promise(l).value <= time
  }

  /** The key is dirty, or waits for a time that is not after `time`, or both, counted. */
  function Due(x: Slot, time: Time): nat {
    (if x.dirty then 1 else 0) + if x.due.Some? && x.due.value <= time then 1 else 0
  }

  lemma DueStep(retries: int, k: Key, v: View, l: Label, time: Time)
    requires Able(k, v, l) && Step(retries, k, v, l).now <= time
    ensures v.now <= time
    ensures (if TakeOf(k)(l) then 1 else 0) + Due(Step(retries, k, v, l).slot, time)
            <= Due(v.slot, time) + if PromisedBy(k, time)(l) then 1 else 0
  {
  }

  lemma {:induction false} DueRun(retries: int, k: Key, trace: seq<Label>, v: View, time: Time)
    requires Follow(retries, k, START, trace) == Some(v) && v.now <= time
    ensures Count(trace, TakeOf(k)) + Due(v.slot, time) <= Count(trace, PromisedBy(k, time))
  {
    if trace != [] {
      var before, l := trace[..|trace| - 1], trace[|trace| - 1];
      var u := Follow(retries, k, START, before).value;
      DueStep(retries, k, u, l, time);
      DueRun(retries, k, before, u, time);
    }
  }

  // Events

  /** The label ends an attempt on version `n` or a later one, without error or with a notification. */
  predicate Concludes(l: Label, k: Key, n: nat) {
    && About(l, k)
    && match l
       case Lookup(_, _, stamp, found) => !found.Object? && n <= stamp
       case Return(_, _, stamp, answer, _) => !answer.Error? && n <= stamp
       case Drop(_, _, stamp) => n <= stamp
       case _ => false
  }

  /** The stage of an attempt that reads version `n` or a later one, and has not concluded. */
  predicate Attempts(p: Stage, k: Key, n: nat) {
    p == Looking(k) || ((p.Handling? || p.Retrying? || p.Dropping?) && p.key == k && n <= p.stamp)
  }

  predicate Covered(k: Key, v: View, n: nat) {
    v.slot.Pending() || Attempts(v.stage, k, n)
  }

  lemma {:induction false} EventRun(retries: int, k: Key, trace: seq<Label>, v: View, i: nat)
    requires Follow(retries, k, START, trace) == Some(v) && !v.slot.down
    requires i < |trace| && trace[i].Accept? && trace[i].key == k
    ensures trace[i].stamp <= v.stamp
    ensures Covered(k, v, trace[i].stamp) || exists j :: i < j < |trace| && Concludes(trace[j], k, trace[i].stamp)
  {
    var n := |trace| - 1;
    if i < n {
      var u := Follow(retries, k, START, trace[..n]).value;
      EventRun(retries, k, trace[..n], u, i);
      if j :| i < j < n && Concludes(trace[..n][j], k, trace[i].stamp) {
        assert Concludes(trace[j], k, trace[i].stamp);
      } else {
        assert Covered(k, v, trace[i].stamp) || Concludes(trace[n], k, trace[i].stamp);
      }
    }
  }

  // The pipeline

  /**
   Exclusive handling: no two workers hold a key, the queue hands out each dirty key once and none
   that is held, and each Get has had exactly one Done, or is held by exactly the worker in between.
   */
  lemma ExclusiveHandling(retries: int, workers: int, trace: seq<Label>, s: State, k: Key)
    requires Run(retries, Init(workers), trace) == Some(s)
    ensures s.queue.Inv() && Distinct(s.workers)
    ensures k in s.queue.processing <==> exists w :: 0 <= w < |s.workers| && s.workers[w].Holds(k)
    ensures Count(trace, TakeOf(k)) == Count(trace, FinishOf(k)) + if k in s.queue.processing then 1 else 0
  {
    Projection(retries, workers, trace, s, k);
    CoherentRun(retries, k, trace, Project(s, k));
  }

  /** Bounded work: a key is taken at most R+1 times for each time it was added. */
  lemma BoundedWork(retries: nat, workers: int, trace: seq<Label>, s: State, k: Key)
    requires Run(retries, Init(workers), trace) == Some(s)
    ensures Count(trace, TakeOf(k)) <= (retries + 1) * Count(trace, EnqueueOf(k))
  {
    Projection(retries, workers, trace, s, k);
    PotentialRun(retries, k, trace, Project(s, k));
    CreditIsProduct(retries, Count(trace, EnqueueOf(k)));
  }

  /**
   The failure counter of a key nobody is settling or retrying equals its handler errors in a row,
   panics and failed lookups not counted, and an event is dropped exactly at error R+1.
   */
  lemma FailureAccounting(retries: int, workers: int, trace: seq<Label>, s: State, k: Key)
    requires Run(retries, Init(workers), trace) == Some(s)
    ensures (forall w | 0 <= w < |s.workers| && s.workers[w].Holds(k) ::
               !s.workers[w].Settling? && !s.workers[w].Retrying? && !s.workers[w].Dropping?)
            ==> s.queue.Failures(k) == ErrorsInARow(trace, k)
    ensures forall w | 0 <= w < |s.workers| && s.workers[w].Holds(k) ::
              && (s.workers[w].Dropping? ==> 0 <= retries && ErrorsInARow(trace, k) == retries + 1)
              && (s.workers[w].Retrying? ==> retries < 0 || ErrorsInARow(trace, k) <= retries)
  {
    Projection(retries, workers, trace, s, k);
    CoherentRun(retries, k, trace, Project(s, k));
    FailuresRun(retries, k, trace, Project(s, k));
    StageOfNone(s.workers, k);
    forall w | 0 <= w < |s.workers| && s.workers[w].Holds(k) ensures StageOf(s.workers, k) == s.workers[w] {
      StageOfHolder(s.workers, w, k);
    }
  }

  /**
   Deadlines: before shutdown, a key enqueued to be ready by a time is ready by then, whatever is
   enqueued for it later, unless it has been taken since. So a re-sync never postpones a change,
   and a key requeued or scheduled by its handler is pending until it is taken again.
   */
  lemma DeadlineKept(retries: int, workers: int, trace: seq<Label>, s: State, i: nat)
    requires Run(retries, Init(workers), trace) == Some(s) && !s.queue.down
    requires i < |trace| && Promise(trace[i]).Some?
    ensures var k := trace[i].key;
            || k in s.queue.dirty
            || (k in s.queue.waiting && s.queue.waiting[k] <= Promise(trace[i]).value)
            || exists j :: i < j < |trace| && TakeOf(k)(trace[j])
  {
    var k := trace[i].key;
    Projection(retries, workers, trace, s, k);
    PromiseRun(retries, k, trace, Project(s, k), i);
  }

  /**
   Never early: of a key, no more are handed out or ready than it was enqueued for by now, be it by an
   event and its delay, by its handler, or by a retry and its back-off. A delay is never cut short.
   */
  lemma NeverEarly(retries: int, workers: int, trace: seq<Label>, s: State, k: Key)
    requires Run(retries, Init(workers), trace) == Some(s)
    ensures Count(trace, TakeOf(k)) + (if k in s.queue.dirty then 1 else 0) <= Count(trace, PromisedBy(k, s.now))
  {
    Projection(retries, workers, trace, s, k);
    DueRun(retries, k, trace, Project(s, k), s.now);
  }

  /**
   No accepted event is lost: before shutdown, for each accepted event, its key is pending, or a
   worker is at an attempt that reads the event's version or a later one, or such an attempt has
   come, after the event, to an end without error or with a notification.
   */
  lemma NoEventLost(retries: int, workers: int, trace: seq<Label>, s: State, i: nat)
    requires Run(retries, Init(workers), trace) == Some(s) && !s.queue.down
    requires i < |trace| && trace[i].Accept?
    ensures var k, n := trace[i].key, trace[i].stamp;
            || k in s.queue.dirty || k in s.queue.waiting
            || (exists w :: 0 <= w < |s.workers| && Attempts(s.workers[w], k, n))
            || exists j :: i < j < |trace| && Concludes(trace[j], k, n)
  {
    var k, n := trace[i].key, trace[i].stamp;
    Projection(retries, workers, trace, s, k);
    EventRun(retries, k, trace, Project(s, k), i);
    if Attempts(StageOf(s.workers, k), k, n) {
      StageOfNone(s.workers, k);
      var w :| 0 <= w < |s.workers| && s.workers[w].Holds(k);
      StageOfHolder(s.workers, w, k);
    }
  }

  /** Nothing is pending and no worker is busy. */
  predicate Quiet(s: State) {
    s.queue.order == [] && s.queue.waiting == map[] && forall w | 0 <= w < |s.workers| :: !s.workers[w].Busy()
  }

  /** In a quiet state, every accepted event has been concluded. */
  lemma QuietMeansConcluded(retries: int, workers: int, trace: seq<Label>, s: State, i: nat)
    requires Run(retries, Init(workers), trace) == Some(s) && !s.queue.down && Quiet(s)
    requires i < |trace| && trace[i].Accept?
    ensures exists j :: i < j < |trace| && Concludes(trace[j], trace[i].key, trace[i].stamp)
  {
    var k := trace[i].key;
    ExclusiveHandling(retries, workers, trace, s, k);
    NoEventLost(retries, workers, trace, s, i);
    assert k !in s.queue.order;
  }

  // Order

  /** Under any action but its own Get, a queued key moves up one place with each Get, or stays. */
  lemma OrderStep(retries: int, s: State, l: Label, p: nat)
    requires Enabled(s, l) && p < |s.queue.order| && !TakeOf(s.queue.order[p])(l)
    ensures var order, i := Apply(retries, s, l).queue.order, if l.Take? then p - 1 else p;
            0 <= i < |order| && order[i] == s.queue.order[p]
  {
  }

  /** No overtaking: a queued key is taken after as many Gets of other keys as are queued before it. */
  lemma {:induction false} NoOvertaking(retries: int, s0: State, trace: seq<Label>, s: State, p: nat)
    requires Run(retries, s0, trace) == Some(s)
    requires p < |s0.queue.order| && Count(trace, TakeOf(s0.queue.order[p])) == 0
    ensures var gets := Count(trace, IsTake());
            gets <= p && p - gets < |s.queue.order| && s.queue.order[p - gets] == s0.queue.order[p]
  {
    if trace != [] {
      var n := |trace| - 1;
      var before := Run(retries, s0, trace[..n]).value;
      NoOvertaking(retries, s0, trace[..n], before, p);
      OrderStep(retries, before, trace[n], p - Count(trace[..n], IsTake()));
    }
  }
}
