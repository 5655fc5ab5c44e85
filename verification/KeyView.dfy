/**
 The pipeline seen from a single key.

 Keys do not interfere: projected onto one key, every run of the pipeline, with any number of
 workers and keys, is a run of the small machine `Step` below (`Projection`). What holds of every
 run of the small machine therefore holds of every key in every run of the pipeline.
 */
module KeyView {
  import opened Wrappers
  import opened WorkQueue
  import opened Pipeline

  /** The queue as one key sees it. */
  datatype Slot = Slot(
    dirty: bool,
    due: Option<Time>,   // deadline, when the key is waiting
    held: bool,          // being processed
    failures: nat,
    down: bool
  ) {
    predicate Pending() { dirty || due.Some? }

    /** Enqueuing after a delay: immediate without one, else the earlier deadline counts. */
    function Enqueue(delay: int, at: Time): Slot {
      if down then this
      else if delay <= 0 then this.(dirty := true)
      else if due.Some? && due.value <= at + delay then this
      else this.(due := Some(at + delay))
    }
  }

  datatype View = View(
    slot: Slot,
    stage: Stage,        // stage of the worker holding the key, Idle when there is none
    stamp: nat,          // version of the key in the cache
    now: Time
  )

  const START := View(Slot(false, None, false, 0, false), Idle, 0, 0)

  function SlotOf(q: Queue, k: Key): Slot {
    Slot(k in q.dirty, if k in q.waiting then Some(q.waiting[k]) else None, k in q.processing, q.Failures(k), q.down)
  }

  /** The stage of the last worker holding `k`. */
  function StageOf(workers: seq<Stage>, k: Key): Stage {
    if workers == [] then Idle
    else
      var last := workers[|workers| - 1];
      if last.Holds(k) then last else StageOf(workers[..|workers| - 1], k)
  }

  function Project(s: State, k: Key): View {
    View(SlotOf(s.queue, k), StageOf(s.workers, k), s.Stamp(k), s.now)
  }

  /** Whether the label is about the key, and not about another one or about all of them. */
  predicate About(l: Label, k: Key) {
    l.HasKey() && l.key == k
  }

  predicate Able(k: Key, v: View, l: Label) {
    About(l, k) ==>
      match l
      case Accept(_, stamp, _, at) => stamp <= v.stamp && at == v.now
      case Release(_) => v.slot.due.Some? && v.slot.due.value <= v.now
      case Take(_, _) => v.slot.dirty && v.stage == Idle
      case Lookup(_, _, stamp, _) => v.stage == Looking(k) && stamp == v.stamp
      case Return(_, _, stamp, _, at) => v.stage == Handling(k, stamp) && at == v.now
      case Retry(_, _, stamp, _, at) => v.stage == Retrying(k, stamp) && at == v.now
      case Drop(_, _, stamp) => v.stage == Dropping(k, stamp)
      case Settle(_, _) => v.stage == Settling(k)
      case Finish(_, _) => v.stage == Finishing(k)
      case _ => true
  }

  function SlotStep(k: Key, x: Slot, l: Label): Slot {
    if l.Stop? then x.(down := true)
    else if !About(l, k) then x
    else
      match l
      case Accept(_, _, delay, at) => x.Enqueue(delay, at)
      case Release(_) => x.(due := None, dirty := x.dirty || !x.down)
      case Take(_, _) => x.(dirty := false, held := true)
      case Return(_, _, _, Schedule(next), at) => x.Enqueue(next - at, at)
      case Retry(_, _, _, backoff, at) => x.(failures := x.failures + 1).Enqueue(backoff, at)
      case Drop(_, _, _) => x.(failures := 0)
      case Settle(_, _) => x.(failures := 0)
      case Finish(_, _) => x.(held := false)
      case _ => x
  }

  function StageStep(retries: int, k: Key, v: View, l: Label): Stage {
    if !About(l, k) || !l.ByWorker() then v.stage
    else if l.Finish? then Idle
    else Next(retries, v.slot.failures, l)
  }

  function Step(retries: int, k: Key, v: View, l: Label): View {
    View(
      SlotStep(k, v.slot, l),
      StageStep(retries, k, v, l),
      if About(l, k) && l.Change? then v.stamp + 1 else v.stamp,
      if l.Tick? then v.now + l.span else v.now)
  }

  /** The small machine run along the trace. */
  function Follow(retries: int, k: Key, v0: View, trace: seq<Label>): Option<View> {
    if trace == [] then Some(v0)
    else
      match Follow(retries, k, v0, trace[..|trace| - 1])
      case None => None
      case Some(v) =>
        var l := trace[|trace| - 1];
        if Able(k, v, l) then Some(Step(retries, k, v, l)) else None
  }

  // Holders

  lemma StageOfHolder(workers: seq<Stage>, w: nat, k: Key)
    requires Distinct(workers) && w < |workers| && workers[w].Holds(k)
    ensures StageOf(workers, k) == workers[w]
  {
    if w < |workers| - 1 {
      StageOfHolder(workers[..|workers| - 1], w, k);
    }
  }

  lemma {:induction false} StageOfNone(workers: seq<Stage>, k: Key)
    ensures StageOf(workers, k) == Idle || StageOf(workers, k).Holds(k)
    ensures StageOf(workers, k) != Idle <==> exists w :: 0 <= w < |workers| && workers[w].Holds(k)
  {
    if workers != [] {
      var n := |workers| - 1;
      StageOfNone(workers[..n], k);
      assert workers == workers[..n] + [workers[n]];
    }
  }

  /** Moving one worker to `p` changes the holder of its old and its new key only. */
  lemma StageOfUpdate(workers: seq<Stage>, w: nat, p: Stage, k: Key)
    requires Distinct(workers) && w < |workers|
    requires p.Busy() ==> workers[w].Holds(p.key) || StageOf(workers, p.key) == Idle
    ensures Distinct(workers[w := p])
    ensures StageOf(workers[w := p], k) ==
            if p.Holds(k) then p else if workers[w].Holds(k) then Idle else StageOf(workers, k)
  {
    var after := workers[w := p];
    assert after[w] == p;
    if p.Busy() {
      StageOfNone(workers, p.key);
    }
    StageOfNone(after, k);
    StageOfNone(workers, k);
    if v :| 0 <= v < |after| && after[v].Holds(k) {
      StageOfHolder(after, v, k);
      if v != w {
        StageOfHolder(workers, v, k);
      }
    } else {
      assert forall v | 0 <= v < |workers| && v != w :: !after[v].Holds(k) ==> !workers[v].Holds(k);
    }
  }

  // One step

  lemma ProcessingHasHolder(s: State, k: Key)
    requires Inv(s)
    ensures k in s.queue.processing <==> StageOf(s.workers, k) != Idle
  {
    StageOfNone(s.workers, k);
  }

  lemma EffectKeepsInv(s: State, l: Label)
    requires Inv(s) && Enabled(s, l)
    ensures Effect(s.queue, l).Inv()
  {
    match l
    case Take(_, _) => GetKeepsInv(s.queue);
    case Finish(w, k) => DoneKeepsInvIff(s.queue, k);
    case Accept(k, _, _, _) => AddKeepsInv(s.queue, k);
    case Release(k) => AddKeepsInv(s.queue.(waiting := s.queue.waiting - {k}), k);
    case Return(_, k, _, _, _) => AddKeepsInv(s.queue, k);
    case Retry(_, k, _, _, _) => AddKeepsInv(s.queue.(failures := s.queue.failures[k := s.queue.Failures(k) + 1]), k);
    case _ =>
  }

  lemma AddAfterProjection(q: Queue, j: Key, delay: int, at: Time, k: Key)
    ensures SlotOf(q.AddAfter(j, delay, at), k) ==
            if j == k then SlotOf(q, k).Enqueue(delay, at) else SlotOf(q, k)
  {
  }

  lemma EnvironmentSlot(q: Queue, l: Label, k: Key)
    requires !l.ByWorker() && (l.Release? ==> l.key in q.waiting)
    ensures SlotOf(Effect(q, l), k) == SlotStep(k, SlotOf(q, k), l)
  {
    match l
    case Accept(j, _, delay, at) => AddAfterProjection(q, j, delay, at, k);
    case _ =>
  }

  lemma WorkerSlot(q: Queue, l: Label, k: Key)
    requires l.ByWorker() && (l.Take? ==> q.Get().1 == Item(l.key))
    ensures SlotOf(Effect(q, l), k) == SlotStep(k, SlotOf(q, k), l)
  {
    match l
    case Return(_, j, _, Schedule(next), at) => AddAfterProjection(q, j, Max(next - at, 0), at, k);
    case Retry(_, j, _, backoff, at) =>
      AddAfterProjection(q.(failures := q.failures[j := q.Failures(j) + 1]), j, backoff, at, k);
    case _ =>
  }

  /** The effect of a label on the queue is, for each key, a step of its slot. */
  lemma SlotProjection(q: Queue, l: Label, k: Key)
    requires l.Take? ==> q.Get().1 == Item(l.key)
    requires l.Release? ==> l.key in q.waiting
    ensures SlotOf(Effect(q, l), k) == SlotStep(k, SlotOf(q, k), l)
  {
    if l.ByWorker() {
      WorkerSlot(q, l, k);
    } else {
      EnvironmentSlot(q, l, k);
    }
  }

  lemma WorkerProjection(retries: int, s: State, l: Label, k: Key)
    requires Inv(s) && Enabled(s, l) && l.ByWorker()
    ensures Able(k, Project(s, k), l)
    ensures Distinct(Apply(retries, s, l).workers)
    ensures StageOf(Apply(retries, s, l).workers, k) == StageStep(retries, k, Project(s, k), l)
  {
    var p := Apply(retries, s, l).workers[l.w];
    if s.workers[l.w].Busy() {
      StageOfHolder(s.workers, l.w, s.workers[l.w].key);
    } else if l.Take? {
      assert l.key in s.queue.order;
      ProcessingHasHolder(s, l.key);
    }
    StageOfUpdate(s.workers, l.w, p, k);
  }

  lemma HolderStep(retries: int, s: State, l: Label, k: Key)
    requires Inv(s) && Enabled(s, l)
    ensures var t := Apply(retries, s, l);
            (k in t.queue.processing <==> StageOf(t.workers, k) != Idle)
  {
    SlotProjection(s.queue, l, k);
    ProcessingHasHolder(s, k);
    if l.ByWorker() {
      WorkerProjection(retries, s, l, k);
    }
  }

  lemma StepKeepsInv(retries: int, s: State, l: Label)
    requires Inv(s) && Enabled(s, l)
    ensures Inv(Apply(retries, s, l))
  {
    var t := Apply(retries, s, l);
    EffectKeepsInv(s, l);
    if l.ByWorker() {
      WorkerProjection(retries, s, l, "");
    }
    forall k
      ensures k in t.queue.processing <==> exists w :: 0 <= w < |t.workers| && t.workers[w].Holds(k)
    {
      HolderStep(retries, s, l, k);
      StageOfNone(t.workers, k);
    }
    forall w | 0 <= w < |t.workers| && t.workers[w].Busy() ensures t.workers[w].key in t.queue.processing {
      assert t.workers[w].Holds(t.workers[w].key);
    }
  }

  /** One action of the pipeline is, for each key, one action of the small machine. */
  lemma StepProjection(retries: int, s: State, l: Label, k: Key)
    requires Inv(s) && Enabled(s, l)
    ensures Able(k, Project(s, k), l)
    ensures Project(Apply(retries, s, l), k) == Step(retries, k, Project(s, k), l)
  {
    SlotProjection(s.queue, l, k);
    if l.ByWorker() {
      WorkerProjection(retries, s, l, k);
    }
  }

  // Runs

  lemma InitInv(workers: int, k: Key)
    ensures Inv(Init(workers)) && Project(Init(workers), k) == START
  {
    StageOfNone(Init(workers).workers, k);
  }

  /** Every run of the pipeline, seen from any key, is a run of the small machine. */
  lemma {:induction false} Projection(retries: int, workers: int, trace: seq<Label>, s: State, k: Key)
    requires Run(retries, Init(workers), trace) == Some(s)
    ensures Inv(s)
    ensures Follow(retries, k, START, trace) == Some(Project(s, k))
  {
    InitInv(workers, k);
    if trace != [] {
      var n := |trace| - 1;
      var before := Run(retries, Init(workers), trace[..n]).value;
      Projection(retries, workers, trace[..n], before, k);
      StepProjection(retries, before, trace[n], k);
      StepKeepsInv(retries, before, trace[n]);
    }
  }
}
