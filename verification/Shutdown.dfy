/**
 After shutdown the workers drain the queue and leave: requeues, schedules and events add nothing, and
 the workers run out of actions. Every key that was dirty is taken exactly once more, if some worker had
 entered its loop; a worker that has not when the context is done never does.
 */
module Shutdown {
  import opened Wrappers
  import opened Sequences
  import opened WorkQueue
  import opened Pipeline
  import opened KeyView
  import opened Guarantees

  function IsByWorker(): Label -> bool {
    (l: Label) => l.ByWorker()
  }

  /** Actions left to a worker at a stage, if the queue gives it nothing more. */
  function Rank(p: Stage): nat {
    match p
    case Skipped => 0
    case Exited => 0
    case Idle => 1
    case Unstarted => 2
    case Finishing(_) => 2
    case Settling(_) => 3
    case Retrying(_, _) => 3
    case Dropping(_, _) => 3
    case Handling(_, _) => 4
    case Looking(_) => 5
  }

  /** Worker actions left after shutdown, at most. */
  function Work(s: State): nat {
    5 * |s.queue.dirty| + Sum(s.workers, Rank)
  }

  /** Every worker has left its loop, or never enters it. */
  predicate AllLeft(s: State) {
    forall w | 0 <= w < |s.workers| :: s.workers[w] == Exited || s.workers[w] == Skipped
  }

  /** Some worker has entered its loop. */
  predicate Entered(s: State) {
    exists w :: 0 <= w < |s.workers| && s.workers[w] != Unstarted && s.workers[w] != Skipped
  }

  /** When the last worker has left its loop, none is left behind with a key in the queue. */
  predicate Drained(s: State) {
    && (forall w | 0 <= w < |s.workers| :: s.workers[w] in {Unstarted, Skipped, Exited})
    && (exists w :: 0 <= w < |s.workers| && s.workers[w] == Exited)
    ==> s.queue.order == []
  }

  /** The shutdown has come, with the context done. */
  predicate Closing(s: State) {
    s.done && s.queue.down && Drained(s)
  }

  /** A queue that is down takes no more keys. */
  lemma DownEffect(q: Queue, l: Label)
    requires q.down && (l.Take? ==> q.Get().1 == Item(l.key))
    ensures Effect(q, l).down
    ensures Effect(q, l).dirty == if l.Take? then q.dirty - {l.key} else q.dirty
    ensures !l.ByWorker() ==> Effect(q, l).order == q.order
  {
  }

  lemma RankStep(retries: int, s: State, l: Label)
    requires Enabled(s, l) && l.ByWorker()
    ensures Sum(Apply(retries, s, l).workers, Rank) + 1 <= Sum(s.workers, Rank) + if l.Take? then 5 else 0
  {
    SumUpdate(s.workers, Rank, l.w, Next(retries, if l.Return? then s.queue.Failures(l.key) else 0, l));
  }

  lemma DownStep(retries: int, s: State, l: Label)
    requires Inv(s) && Enabled(s, l) && s.queue.down
    ensures Apply(retries, s, l).queue.down
    ensures Apply(retries, s, l).queue.dirty == if l.Take? then s.queue.dirty - {l.key} else s.queue.dirty
    ensures Work(Apply(retries, s, l)) + (if l.ByWorker() then 1 else 0) <= Work(s)
  {
    DownEffect(s.queue, l);
    if l.Take? {
      assert l.key in s.queue.order;
    }
    if l.ByWorker() {
      RankStep(retries, s, l);
    }
  }

  lemma DrainedStep(retries: int, s: State, l: Label)
    requires Enabled(s, l) && Closing(s)
    ensures Closing(Apply(retries, s, l))
    ensures Entered(Apply(retries, s, l)) <==> Entered(s)
  {
    var t := Apply(retries, s, l);
    if l.ByWorker() {
      assert t.workers[l.w] in {Unstarted, Skipped, Exited} ==> l.Exit? || l.Skip?;
      assert forall w | 0 <= w < |s.workers| && w != l.w :: t.workers[w] == s.workers[w];
    } else {
      DownEffect(s.queue, l);
    }
  }

  lemma {:induction false} DownRun(retries: int, s0: State, trace: seq<Label>, s: State)
    requires Inv(s0) && Closing(s0) && Run(retries, s0, trace) == Some(s)
    ensures Inv(s) && Closing(s) && |s.workers| == |s0.workers|
    ensures Entered(s) <==> Entered(s0)
    ensures s.queue.dirty <= s0.queue.dirty
    ensures Count(trace, IsTake()) + |s.queue.dirty| == |s0.queue.dirty|
    ensures Count(trace, IsByWorker()) + Work(s) <= Work(s0)
    ensures !Entered(s0) ==> s.queue.dirty == s0.queue.dirty
  {
    if trace != [] {
      var n := |trace| - 1;
      var before := Run(retries, s0, trace[..n]).value;
      DownRun(retries, s0, trace[..n], before);
      DownStep(retries, before, trace[n]);
      DrainedStep(retries, before, trace[n]);
      StepKeepsInv(retries, before, trace[n]);
      if trace[n].Take? {
        assert trace[n].key in before.queue.order;
      }
    }
  }

  /** Each key is taken once if it was dirty and is not any more, and never otherwise. */
  lemma {:induction false} DownTakes(retries: int, s0: State, trace: seq<Label>, s: State, k: Key)
    requires Inv(s0) && Closing(s0) && Run(retries, s0, trace) == Some(s)
    ensures Count(trace, TakeOf(k)) == if k in s0.queue.dirty && k !in s.queue.dirty then 1 else 0
  {
    if trace != [] {
      var n := |trace| - 1;
      var before := Run(retries, s0, trace[..n]).value;
      DownTakes(retries, s0, trace[..n], before, k);
      DownRun(retries, s0, trace[..n], before);
      DownStep(retries, before, trace[n]);
      if trace[n].Take? {
        assert trace[n].key in before.queue.order;
      }
    }
  }

  /** Nobody leaves before shutdown, nobody stays out before the context is done, which comes first. */
  predicate Orderly(s: State) {
    && (s.queue.down ==> s.done && Drained(s))
    && (forall w | 0 <= w < |s.workers| ::
          (s.workers[w] == Exited ==> s.queue.down) && (s.workers[w] == Skipped ==> s.done))
  }

  lemma UpStep(retries: int, s: State, l: Label)
    requires Enabled(s, l) && Orderly(s)
    ensures Orderly(Apply(retries, s, l))
    ensures Entered(Apply(retries, s, l)) <==> Entered(s) || l.Enter?
  {
    var t := Apply(retries, s, l);
    if s.queue.down {
      DrainedStep(retries, s, l);
    } else if l.ByWorker() {
      assert t.workers[l.w] != Exited;
      assert l.Enter? ==> t.workers[l.w] == Idle;
      assert !l.Enter? && !l.Skip? ==> s.workers[l.w] != Unstarted && s.workers[l.w] != Skipped;
      assert forall w | 0 <= w < |s.workers| && w != l.w :: t.workers[w] == s.workers[w];
    }
  }

  /** Some worker has called Process in the course of the trace. */
  predicate SomeEntered(trace: seq<Label>) {
    exists j :: 0 <= j < |trace| && trace[j].Enter?
  }

  /** The conditions of `DownRun` hold at the shutdown of any run. */
  lemma {:induction false} OrderlyRun(retries: int, workers: int, trace: seq<Label>, s: State)
    requires Run(retries, Init(workers), trace) == Some(s)
    ensures Inv(s) && Orderly(s) && |s.workers| == Max(workers, 0)
    ensures Entered(s) <==> SomeEntered(trace)
  {
    InitInv(workers, "");
    if trace != [] {
      var n := |trace| - 1;
      var before := Run(retries, Init(workers), trace[..n]).value;
      OrderlyRun(retries, workers, trace[..n], before);
      StepKeepsInv(retries, before, trace[n]);
      UpStep(retries, before, trace[n]);
      if SomeEntered(trace[..n]) {
        var j :| 0 <= j < n && trace[..n][j].Enter?;
        assert trace[j].Enter?;
      }
      assert forall j | 0 <= j < n && trace[j].Enter? :: trace[..n][j].Enter?;
    }
  }

  /** A worker that holds a key can always act. */
  lemma BusyCanAct(s: State, w: nat)
    requires w < |s.workers| && s.workers[w].Busy()
    ensures exists l: Label :: l.ByWorker() && l.HasKey() && l.w == w && Enabled(s, l)
  {
    var l := match s.workers[w]
      case Looking(k) => Lookup(w, k, s.Stamp(k), Failed)
      case Handling(k, stamp) => Return(w, k, stamp, Success, s.now)
      case Retrying(k, stamp) => Retry(w, k, stamp, 0, s.now)
      case Dropping(k, stamp) => Drop(w, k, stamp)
      case Settling(k) => Settle(w, k)
      case Finishing(k) => Finish(w, k);
    assert l.ByWorker() && l.HasKey() && l.w == w && Enabled(s, l);
  }

  /** After shutdown a worker that has not left can always act, whatever the others do. */
  lemma WorkerCanAct(s: State, w: nat)
    requires s.done && s.queue.down && w < |s.workers| && s.workers[w] != Exited && s.workers[w] != Skipped
    ensures exists l: Label :: l.ByWorker() && l.w == w && Enabled(s, l)
  {
    if s.workers[w].Busy() {
      BusyCanAct(s, w);
    } else {
      var l := if s.workers[w] == Unstarted then Skip(w)
               else if s.queue.order == [] then Exit(w) else Take(w, s.queue.order[0]);
      assert l.ByWorker() && l.w == w && Enabled(s, l);
    }
  }

  lemma WorkBound(s: State)
    ensures Work(s) <= 5 * (|s.queue.dirty| + |s.workers|)
  {
    SumBound(s.workers, Rank, 5);
  }

  /** When no worker can act, all have left. */
  lemma StuckMeansLeft(s: State)
    requires s.done && s.queue.down && forall l: Label :: l.ByWorker() ==> !Enabled(s, l)
    ensures AllLeft(s)
  {
    forall w | 0 <= w < |s.workers| ensures s.workers[w] == Exited || s.workers[w] == Skipped {
      if s.workers[w] != Exited && s.workers[w] != Skipped {
        WorkerCanAct(s, w);
      }
    }
  }

  lemma LeftMeansEmpty(s: State)
    requires Inv(s) && Drained(s) && AllLeft(s) && Entered(s)
    ensures s.queue.dirty == {}
  {
    assert forall k | k in s.queue.dirty :: k in s.queue.order;
  }

  /**
   Shutdown drains and terminates: let the queue be shut down in a run at `down`, and let the run go
   on to `s`. The workers have taken at most the keys that were dirty, in at most
   5 * (dirty keys + workers) actions. When none of them can act any more, each has left its loop or
   never enters it. If one had called Process at all, every key dirty at the shutdown has been taken
   then, exactly once; if none had, no key is, and all stay behind in the queue.
   */
  lemma ShutdownDrains(
    retries: int, workers: int, trace: seq<Label>, down: State, rest: seq<Label>, s: State
  )
    requires Run(retries, Init(workers), trace) == Some(down) && down.queue.down
    requires Run(retries, down, rest) == Some(s)
    ensures |s.workers| == Max(workers, 0)
    ensures Count(rest, IsTake()) == |down.queue.dirty| - |s.queue.dirty|
    ensures Count(rest, IsByWorker()) <= 5 * (|down.queue.dirty| + Max(workers, 0))
    ensures (forall l: Label :: l.ByWorker() ==> !Enabled(s, l)) ==> AllLeft(s)
    ensures AllLeft(s) ==> s.queue.dirty == if SomeEntered(trace) then {} else down.queue.dirty
    ensures AllLeft(s) ==>
              forall k :: Count(rest, TakeOf(k)) == if SomeEntered(trace) && k in down.queue.dirty then 1 else 0
  {
    OrderlyRun(retries, workers, trace, down);
    DownRun(retries, down, rest, s);
    WorkBound(down);
    if forall l: Label :: l.ByWorker() ==> !Enabled(s, l) {
      StuckMeansLeft(s);
    }
    if AllLeft(s) {
      if Entered(s) {
        LeftMeansEmpty(s);
      }
      forall k ensures Count(rest, TakeOf(k)) == if SomeEntered(trace) && k in down.queue.dirty then 1 else 0 {
        DownTakes(retries, down, rest, s, k);
      }
    }
  }
}
