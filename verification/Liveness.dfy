/**
 Every accepted event is concluded in the end: in every infinite run whose workers and waiting loop go
 on, however many events come in, for its key or for others.

 What is left to do for an event is measured in the small machine of `KeyView`: the failures that its
 key may still have, and the stage of the attempt. The key gets on, from wherever it is: a worker that
 holds it acts, a queued key moves up and is taken, and a waiting one becomes dirty in time.
 */
module Liveness {
  import opened Wrappers
  import opened WorkQueue
  import opened Pipeline
  import opened KeyView
  import opened Guarantees
  import opened Shutdown

  /** An infinite run: state `n`, and the action that leads from it to the next. */
  datatype Execution = Execution(states: nat -> State, labels: nat -> Label) {
    predicate StepAt(retries: int, n: nat) {
      Enabled(states(n), labels(n)) && states(n + 1) == Apply(retries, states(n), labels(n))
    }

    ghost predicate Legal(retries: int, workers: int) {
      states(0) == Init(workers) && forall n: nat :: StepAt(retries, n)
    }

    predicate ActsAt(w: nat, n: nat) {
      labels(n).ByWorker() && labels(n).w == w
    }

    ghost predicate WorkerTurn(w: nat, n: nat, m: nat) {
      n <= m && (ActsAt(w, m) || forall l: Label | l.ByWorker() && l.w == w :: !Enabled(states(m), l))
    }

    predicate ReleaseTurn(k: Key, n: nat, m: nat) {
      n <= m && (labels(m) == Release(k) || !Enabled(states(m), Release(k)))
    }

    ghost predicate HasWorkerTurn(w: nat, n: nat) {
      exists m :: WorkerTurn(w, n, m)
    }

    ghost predicate HasReleaseTurn(k: Key, n: nat) {
      exists m :: ReleaseTurn(k, n, m)
    }

    ghost predicate Reaches(t: Time) {
      exists m: nat :: t <= states(m).now
    }

    /** A worker that can act does so sometime, a key that can be released is sometime, and time goes on. */
    ghost predicate Fair() {
      && (forall w: nat, n: nat | w < |states(0).workers| :: HasWorkerTurn(w, n))
      && (forall k, n: nat :: HasReleaseTurn(k, n))
      && (forall t: Time :: Reaches(t))
    }

    /** The first `n` actions. */
    function Prefix(n: nat): (trace: seq<Label>)
      ensures |trace| == n && forall i: nat | i < n :: trace[i] == labels(i)
    {
      seq(n, i requires 0 <= i < n => labels(i))
    }
  }

  /** An execution before the context is done. */
  ghost predicate Open(retries: int, workers: int, x: Execution) {
    workers > 0 && x.Legal(retries, workers) && x.Fair() && forall n: nat :: !x.states(n).done
  }

  lemma {:induction false} PrefixRuns(retries: int, workers: int, x: Execution, n: nat)
    requires x.Legal(retries, workers)
    ensures Run(retries, Init(workers), x.Prefix(n)) == Some(x.states(n))
  {
    if n > 0 {
      PrefixRuns(retries, workers, x, n - 1);
      assert x.StepAt(retries, n - 1);
      assert x.Prefix(n)[..n - 1] == x.Prefix(n - 1);
    }
  }

  /** What holds at every point before the context is done. */
  lemma AtEachPoint(retries: int, workers: int, x: Execution, n: nat, k: Key)
    requires Open(retries, workers, x)
    ensures var s := x.states(n);
            && Inv(s) && !s.queue.down && |s.workers| == workers && x.StepAt(retries, n)
            && (forall w | 0 <= w < workers :: s.workers[w] != Exited && s.workers[w] != Skipped)
            && Coherent(retries, k, Project(s, k))
            && Project(x.states(n + 1), k) == Step(retries, k, Project(s, k), x.labels(n))
            && Able(k, Project(s, k), x.labels(n))
  {
    PrefixRuns(retries, workers, x, n);
    OrderlyRun(retries, workers, x.Prefix(n), x.states(n));
    Projection(retries, workers, x.Prefix(n), x.states(n), k);
    CoherentRun(retries, k, x.Prefix(n), Project(x.states(n), k));
    assert x.StepAt(retries, n);
    StepProjection(retries, x.states(n), x.labels(n), k);
  }

  // The measure

  /** What is left to do, at most, for an event of version `n` on a key that is pending or attempted. */
  function Left(retries: nat, v: View, n: nat): int {
    var f, stale := 8 * (retries - v.slot.failures), 8 * retries + 8;
    match v.stage
    case Finishing(_) => f + 7
    case Looking(_) => f + 4
    case Handling(_, stamp) => if n <= stamp then f + 3 else stale + 4
    case Retrying(_, stamp) => if n <= stamp then f + 2 else stale + 3
    case Dropping(_, stamp) => if n <= stamp then f + 2 else stale + 3
    case Settling(_) => stale + 3
    case _ => if v.slot.dirty then f + 5 else f + 6
  }

  /** Nothing adds to it, and every action of a worker on the key takes from it, and so does becoming dirty. */
  lemma LeftStep(retries: nat, k: Key, v: View, l: Label, n: nat)
    requires Coherent(retries, k, v) && Able(k, v, l) && n <= v.stamp && !Concludes(l, k, n)
    ensures var u := Step(retries, k, v, l);
            && 0 <= Left(retries, u, n) <= Left(retries, v, n)
            && ((About(l, k) && l.ByWorker()) || (v.stage == Idle && !v.slot.dirty && u.slot.dirty)
                ==> Left(retries, u, n) < Left(retries, v, n))
  {
  }

  // Getting on

  /** A worker that holds a key acts on it in the end, and keeps its stage until then. */
  lemma {:induction false} HolderActs(retries: int, workers: int, x: Execution, w: nat, k: Key, n: nat, m: nat)
    returns (j: nat)
    requires Open(retries, workers, x) && w < workers == |x.states(n).workers|
    requires x.states(n).workers[w].Holds(k) && x.WorkerTurn(w, n, m)
    ensures n <= j && About(x.labels(j), k) && x.labels(j).ByWorker()
    decreases m - n
  {
    AtEachPoint(retries, workers, x, n, k);
    if x.ActsAt(w, n) {
      return n;
    }
    if n == m {
      BusyCanAct(x.states(n), w);
    }
    AtEachPoint(retries, workers, x, n + 1, k);
    j := HolderActs(retries, workers, x, w, k, n + 1, m);
  }

  /** The first worker can act as long as a key is queued. */
  lemma FirstCanAct(s: State)
    requires s.workers != [] && s.workers[0] != Exited && s.workers[0] != Skipped && !s.done && s.queue.order != []
    ensures exists l: Label :: l.ByWorker() && l.w == 0 && Enabled(s, l)
  {
    if s.workers[0].Busy() {
      BusyCanAct(s, 0);
    } else {
      var l := if s.workers[0] == Idle then Take(0, s.queue.order[0]) else Enter(0);
      assert l.ByWorker() && l.w == 0 && Enabled(s, l);
    }
  }

  /** A queued key stays or moves up, and if it stays, an action of the first worker brings it closer to a Get. */
  lemma QueuedStep(retries: int, workers: int, x: Execution, n: nat, p: nat)
    requires Open(retries, workers, x) && |x.states(n).workers| == workers && p < |x.states(n).queue.order|
    requires !TakeOf(x.states(n).queue.order[p])(x.labels(n))
    ensures var s, t, q := x.states(n), x.states(n + 1), if x.labels(n).Take? then p - 1 else p;
            && |t.workers| == workers && 0 <= q < |t.queue.order| && t.queue.order[q] == s.queue.order[p]
            && (if x.ActsAt(0, n) then q < p || Rank(t.workers[0]) < Rank(s.workers[0])
                else t.workers[0] == s.workers[0])
  {
    AtEachPoint(retries, workers, x, n, "");
    OrderStep(retries, x.states(n), x.labels(n), p);
  }

  /** A queued key is taken in the end: with each Get it moves up, and the first worker comes to its Gets. */
  lemma {:induction false} QueuedIsTaken(retries: int, workers: int, x: Execution, n: nat, p: nat, m: nat)
    returns (j: nat)
    requires Open(retries, workers, x) && |x.states(n).workers| == workers
    requires p < |x.states(n).queue.order| && x.WorkerTurn(0, n, m)
    ensures n <= j && TakeOf(x.states(n).queue.order[p])(x.labels(j))
    decreases p, Rank(x.states(n).workers[0]), m - n
  {
    var l := x.labels(n);
    if TakeOf(x.states(n).queue.order[p])(l) {
      return n;
    }
    QueuedStep(retries, workers, x, n, p);
    var next := m;
    if x.ActsAt(0, n) {
      assert x.HasWorkerTurn(0, n + 1);
      next :| x.WorkerTurn(0, n + 1, next);
    } else if n == m {
      AtEachPoint(retries, workers, x, n, "");
      FirstCanAct(x.states(n));
    }
    j := QueuedIsTaken(retries, workers, x, n + 1, if l.Take? then p - 1 else p, next);
  }

  lemma {:induction false} TimeGoesOn(retries: int, workers: int, x: Execution, n: nat, m: nat)
    requires x.Legal(retries, workers) && n <= m
    ensures x.states(n).now <= x.states(m).now
    decreases m - n
  {
    if n < m {
      assert x.StepAt(retries, n);
      TimeGoesOn(retries, workers, x, n + 1, m);
    }
  }

  /** The key waits, with nobody holding it, and is not dirty. */
  predicate Waits(v: View, deadline: Time) {
    !v.slot.dirty && v.stage == Idle && v.slot.due.Some? && v.slot.due.value <= deadline
  }

  lemma WaitsStep(retries: int, k: Key, v: View, l: Label, deadline: Time)
    requires Coherent(retries, k, v) && Able(k, v, l) && !v.slot.down && Waits(v, deadline)
    ensures var u := Step(retries, k, v, l);
            if l == Release(k) then u.slot.dirty else u.slot.dirty || Waits(u, deadline)
  {
  }

  /** A waiting key becomes dirty in the end. */
  lemma {:induction false} WaitingBecomesDirty(
    retries: int, workers: int, x: Execution, k: Key, deadline: Time, n: nat, m: nat
  ) returns (j: nat)
    requires Open(retries, workers, x) && Waits(Project(x.states(n), k), deadline)
    requires x.ReleaseTurn(k, n, m) && deadline <= x.states(m).now
    ensures n <= j && Waits(Project(x.states(j), k), deadline) && Project(x.states(j + 1), k).slot.dirty
    decreases m - n
  {
    AtEachPoint(retries, workers, x, n, k);
    WaitsStep(retries, k, Project(x.states(n), k), x.labels(n), deadline);
    if Project(x.states(n + 1), k).slot.dirty {
      return n;
    }
    j := WaitingBecomesDirty(retries, workers, x, k, deadline, n + 1, m);
  }

  /** Action `n` is one of a worker on the key, or makes the key dirty while nobody holds it. */
  predicate GetsOnAt(x: Execution, k: Key, n: nat) {
    var v, u := Project(x.states(n), k), Project(x.states(n + 1), k);
    (About(x.labels(n), k) && x.labels(n).ByWorker()) || (v.stage == Idle && !v.slot.dirty && u.slot.dirty)
  }

  lemma DirtyGetsOn(retries: int, workers: int, x: Execution, k: Key, n: nat) returns (j: nat)
    requires Open(retries, workers, x)
    requires k in x.states(n).queue.dirty && k !in x.states(n).queue.processing
    ensures n <= j && GetsOnAt(x, k, j)
  {
    var order := x.states(n).queue.order;
    AtEachPoint(retries, workers, x, n, k);
    assert |x.states(0).workers| == workers;
    var p: nat :| p < |order| && order[p] == k;
    assert x.HasWorkerTurn(0, n);
    var m :| x.WorkerTurn(0, n, m);
    j := QueuedIsTaken(retries, workers, x, n, p, m);
  }

  lemma WaitingGetsOn(retries: int, workers: int, x: Execution, k: Key, deadline: Time, n: nat) returns (j: nat)
    requires Open(retries, workers, x) && Waits(Project(x.states(n), k), deadline)
    ensures n <= j && GetsOnAt(x, k, j)
  {
    assert x.Reaches(deadline);
    var late: nat :| deadline <= x.states(late).now;
    assert x.HasReleaseTurn(k, Max(n, late));
    var m :| x.ReleaseTurn(k, Max(n, late), m);
    TimeGoesOn(retries, workers, x, late, m);
    j := WaitingBecomesDirty(retries, workers, x, k, deadline, n, m);
  }

  /** A key that is pending or held gets on in the end. */
  lemma GetsOn(retries: int, workers: int, x: Execution, k: Key, n: nat) returns (j: nat)
    requires Open(retries, workers, x)
    requires Project(x.states(n), k).slot.Pending() || Project(x.states(n), k).stage != Idle
    ensures n <= j && GetsOnAt(x, k, j)
  {
    var s := x.states(n);
    AtEachPoint(retries, workers, x, n, k);
    if Project(s, k).stage != Idle {
      assert |x.states(0).workers| == workers;
      StageOfNone(s.workers, k);
      var w: nat :| w < workers && s.workers[w].Holds(k);
      assert x.HasWorkerTurn(w, n);
      var m :| x.WorkerTurn(w, n, m);
      j := HolderActs(retries, workers, x, w, k, n, m);
    } else if k in s.queue.dirty {
      j := DirtyGetsOn(retries, workers, x, k, n);
    } else {
      j := WaitingGetsOn(retries, workers, x, k, s.queue.waiting[k], n);
    }
  }

  // Events

  /** The event accepted at `i` is concluded before `n`. */
  predicate ConcludedBefore(x: Execution, i: nat, n: nat)
    requires x.labels(i).Accept?
  {
    exists j: nat :: i < j < n && Concludes(x.labels(j), x.labels(i).key, x.labels(i).stamp)
  }

  /** Until the event is concluded, its key is pending or attempted. */
  lemma CoveredAt(retries: nat, workers: int, x: Execution, i: nat, n: nat)
    requires Open(retries, workers, x) && x.labels(i).Accept? && i < n && !ConcludedBefore(x, i, n)
    ensures var k, stamp := x.labels(i).key, x.labels(i).stamp;
            var v := Project(x.states(n), k);
            Coherent(retries, k, v) && Covered(k, v, stamp) && stamp <= v.stamp
  {
    var k, stamp, trace := x.labels(i).key, x.labels(i).stamp, x.Prefix(n);
    AtEachPoint(retries, workers, x, n, k);
    PrefixRuns(retries, workers, x, n);
    Projection(retries, workers, trace, x.states(n), k);
    EventRun(retries, k, trace, Project(x.states(n), k), i);
    forall j | i < j < n ensures !Concludes(trace[j], k, stamp) {
      assert trace[j] == x.labels(j);
    }
  }

  /** One action leaves no more than before, and less if the key gets on. */
  lemma LeftAfter(retries: nat, workers: int, x: Execution, i: nat, n: nat)
    requires Open(retries, workers, x) && x.labels(i).Accept? && i < n && !ConcludedBefore(x, i, n + 1)
    ensures var k, stamp := x.labels(i).key, x.labels(i).stamp;
            var v, u := Project(x.states(n), k), Project(x.states(n + 1), k);
            && 0 <= Left(retries, u, stamp) <= Left(retries, v, stamp)
            && (GetsOnAt(x, k, n) ==> Left(retries, u, stamp) < Left(retries, v, stamp))
  {
    var k, stamp := x.labels(i).key, x.labels(i).stamp;
    CoveredAt(retries, workers, x, i, n);
    AtEachPoint(retries, workers, x, n, k);
    LeftStep(retries, k, Project(x.states(n), k), x.labels(n), stamp);
  }

  lemma {:induction false} LeftRun(retries: nat, workers: int, x: Execution, i: nat, n: nat, m: nat)
    requires Open(retries, workers, x) && x.labels(i).Accept? && i < n <= m && !ConcludedBefore(x, i, m)
    ensures var k, stamp := x.labels(i).key, x.labels(i).stamp;
            Left(retries, Project(x.states(m), k), stamp) <= Left(retries, Project(x.states(n), k), stamp)
    decreases m - n
  {
    if n < m {
      LeftRun(retries, workers, x, i, n + 1, m);
      LeftAfter(retries, workers, x, i, n);
    }
  }

  lemma {:induction false} ConcludedFrom(retries: nat, workers: int, x: Execution, i: nat, n: nat)
    requires Open(retries, workers, x) && x.labels(i).Accept? && i < n
    ensures exists m: nat :: ConcludedBefore(x, i, m)
    decreases Left(retries, Project(x.states(n), x.labels(i).key), x.labels(i).stamp)
  {
    if !ConcludedBefore(x, i, n) {
      CoveredAt(retries, workers, x, i, n);
      var m := GetsOn(retries, workers, x, x.labels(i).key, n);
      if !ConcludedBefore(x, i, m + 1) {
        LeftRun(retries, workers, x, i, n, m);
        LeftAfter(retries, workers, x, i, m);
        ConcludedFrom(retries, workers, x, i, m + 1);
      }
    }
  }

  /**
   Every accepted event is concluded: with retries that end and at least one worker, in every fair run
   whose context is not done, each accepted event is followed by the end of an attempt on its version
   or a later one, without error or with a notification. More events do not put it off for ever.
   */
  lemma EveryEventConcluded(retries: nat, workers: int, x: Execution, i: nat)
    requires Open(retries, workers, x) && x.labels(i).Accept?
    ensures exists j: nat :: i < j && Concludes(x.labels(j), x.labels(i).key, x.labels(i).stamp)
  {
    ConcludedFrom(retries, workers, x, i, i + 1);
    var m: nat :| ConcludedBefore(x, i, m);
  }

  // Such runs exist

  /** One event, for a key that is not in the cache, and nothing but time after it. */
  function SampleLabel(k: Key, n: nat): Label {
    match n
    case 0 => Accept(k, 0, 0, 0)
    case 1 => Enter(0)
    case 2 => Take(0, k)
    case 3 => Lookup(0, k, 0, Missing)
    case 4 => Settle(0, k)
    case 5 => Finish(0, k)
    case _ => Tick(1)
  }

  function SampleState(k: Key, n: nat): State {
    var queue := if n == 1 || n == 2 then EMPTY.Add(k) else if 3 <= n <= 5 then EMPTY.Add(k).Get().0 else EMPTY;
    var worker := match n
      case 0 => Unstarted
      case 1 => Unstarted
      case 2 => Idle
      case 3 => Looking(k)
      case 4 => Settling(k)
      case 5 => Finishing(k)
      case _ => Idle;
    State(queue, {}, map[], [worker], false, if n <= 6 then 0 else n - 6)
  }

  function Sample(k: Key): Execution {
    Execution((n: nat) => SampleState(k, n), (n: nat) => SampleLabel(k, n))
  }

  lemma SampleIsLegal(retries: int, k: Key)
    ensures Sample(k).Legal(retries, 1)
  {
    assert Init(1).workers == [Unstarted];
    forall n: nat ensures Sample(k).StepAt(retries, n) {
      var s, t := SampleState(k, n), SampleState(k, n + 1);
      assert s.workers[0 := t.workers[0]] == t.workers;
    }
  }

  lemma SampleIsFair(k: Key)
    ensures Sample(k).Fair()
  {
    var x := Sample(k);
    forall w: nat, n: nat | w < |x.states(0).workers| ensures x.HasWorkerTurn(w, n) {
      assert x.WorkerTurn(w, n, n + 6);
    }
    forall j, n: nat ensures x.HasReleaseTurn(j, n) {
      assert x.ReleaseTurn(j, n, n + 6);
    }
    forall t: Time ensures x.Reaches(t) {
      assert t <= x.states(Max(t, 0) + 6).now;
    }
  }

  /** The conditions can be met, with an event to conclude. */
  lemma OpenRunExists(retries: int)
    ensures exists x :: Open(retries, 1, x) && x.labels(0).Accept?
  {
    SampleIsLegal(retries, "");
    SampleIsFair("");
    assert Open(retries, 1, Sample(""));
  }
}
