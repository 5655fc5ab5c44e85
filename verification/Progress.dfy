/**
 The actions of a run are bounded by what is enqueued in it, and, before the context is done, a run that
 has anything left to do can go on. So once nothing more is enqueued, every run that goes on as long as
 it can comes to rest, with every accepted event concluded.
 */
module Progress {
  import opened Wrappers
  import opened Sequences
  import opened WorkQueue
  import opened Pipeline
  import opened KeyView
  import opened Guarantees
  import opened Shutdown

  /** A worker's action on a key, or the release of a waiting one. */
  predicate Acts(l: Label) {
    l.HasKey() && (l.ByWorker() || l.Release?)
  }

  function IsAction(): Label -> bool {
    (l: Label) => Acts(l)
  }

  function ActionOf(k: Key): Label -> bool {
    (l: Label) => Acts(l) && l.key == k
  }

  function ActionIn(keys: set<Key>): Label -> bool {
    (l: Label) => Acts(l) && l.key in keys
  }

  function IsEnqueue(): Label -> bool {
    (l: Label) => Enqueues(l)
  }

  function EnqueueIn(keys: set<Key>): Label -> bool {
    (l: Label) => Enqueues(l) && l.key in keys
  }

  function IsEnter(): Label -> bool {
    (l: Label) => l.Enter?
  }

  // One key

  /** Actions still to come for a key before its next Get, at most, unless it is enqueued again. */
  function Remaining(v: View): nat {
    (match v.stage
     case Looking(_) => 5
     case Handling(_, _) => 4
     case Retrying(_, _) => 3
     case Dropping(_, _) => 2
     case Settling(_) => 2
     case Finishing(_) => 1
     case _ => 0)
    + if v.slot.due.Some? then 1 else 0
  }

  lemma RemainingStep(retries: int, k: Key, v: View, l: Label)
    requires Able(k, v, l)
    ensures Remaining(Step(retries, k, v, l)) + (if ActionOf(k)(l) then 1 else 0)
            <= Remaining(v) + (if TakeOf(k)(l) then 6 else 0) + if EnqueueOf(k)(l) then 1 else 0
  {
  }

  lemma {:induction false} RemainingRun(retries: int, k: Key, trace: seq<Label>, v: View)
    requires Follow(retries, k, START, trace) == Some(v)
    ensures Count(trace, ActionOf(k)) + Remaining(v) <= 6 * Count(trace, TakeOf(k)) + Count(trace, EnqueueOf(k))
  {
    if trace != [] {
      var before, l := trace[..|trace| - 1], trace[|trace| - 1];
      var u := Follow(retries, k, START, before).value;
      RemainingRun(retries, k, before, u);
      RemainingStep(retries, k, u, l);
    }
  }

  lemma SixPlusOne(m: nat, n: nat)
    requires m > 0
    ensures 6 * (m * n) + n <= 7 * m * n
  {
    assert m * n == n + (m - 1) * n;
    assert 7 * m * n == 7 * (m * n);
  }

  /** The actions on a key, in any run: at most 7(R+1) for each time it was enqueued. */
  lemma ActionsBounded(retries: nat, workers: int, trace: seq<Label>, s: State, k: Key)
    requires Run(retries, Init(workers), trace) == Some(s)
    ensures Count(trace, ActionOf(k)) <= 7 * (retries + 1) * Count(trace, EnqueueOf(k))
  {
    Projection(retries, workers, trace, s, k);
    RemainingRun(retries, k, trace, Project(s, k));
    BoundedWork(retries, workers, trace, s, k);
    SixPlusOne(retries + 1, Count(trace, EnqueueOf(k)));
  }

  // All keys

  function KeysOf(trace: seq<Label>): set<Key> {
    set i | 0 <= i < |trace| && trace[i].HasKey() :: trace[i].key
  }

  lemma Distribute(c: nat, a: nat, b: nat)
    ensures c * (a + b) == c * a + c * b
  {
  }

  lemma {:induction false} ActionsInBounded(
    retries: nat, workers: int, trace: seq<Label>, s: State, keys: set<Key>
  )
    requires Run(retries, Init(workers), trace) == Some(s)
    ensures Count(trace, ActionIn(keys)) <= 7 * (retries + 1) * Count(trace, EnqueueIn(keys))
    decreases keys
  {
    if keys == {} {
      CountNone(trace, ActionIn({}));
    } else {
      var k :| k in keys;
      var rest := keys - {k};
      ActionsInBounded(retries, workers, trace, s, rest);
      ActionsBounded(retries, workers, trace, s, k);
      CountSplit(trace, ActionIn(keys), ActionIn(rest), ActionOf(k));
      CountSplit(trace, EnqueueIn(keys), EnqueueIn(rest), EnqueueOf(k));
      Distribute(7 * (retries + 1), Count(trace, EnqueueIn(rest)), Count(trace, EnqueueOf(k)));
    }
  }

  function ToEnter(p: Stage): nat {
    if p.Unstarted? then 1 else 0
  }

  lemma {:induction false} EntersBounded(retries: int, workers: int, trace: seq<Label>, s: State)
    requires Run(retries, Init(workers), trace) == Some(s)
    ensures Count(trace, IsEnter()) + Sum(s.workers, ToEnter) <= Max(workers, 0)
  {
    if trace == [] {
      SumBound(s.workers, ToEnter, 1);
    } else {
      var n := |trace| - 1;
      var before := Run(retries, Init(workers), trace[..n]).value;
      EntersBounded(retries, workers, trace[..n], before);
      if trace[n].ByWorker() {
        SumUpdate(before.workers, ToEnter, trace[n].w, s.workers[trace[n].w]);
      }
    }
  }

  /** An action on a key, or a worker that enters its loop: what moves a run on before the context is done. */
  function Advances(): Label -> bool {
    (l: Label) => l.Enter? || Acts(l)
  }

  lemma AdvancesBounded(retries: nat, workers: int, trace: seq<Label>, s: State)
    requires Run(retries, Init(workers), trace) == Some(s)
    ensures Count(trace, Advances()) <= 7 * (retries + 1) * Count(trace, IsEnqueue()) + Max(workers, 0)
  {
    var keys := KeysOf(trace);
    forall l | l in trace && l.HasKey() ensures l.key in keys {
      var i :| 0 <= i < |trace| && trace[i] == l;
      assert trace[i].key in keys;
    }
    ActionsInBounded(retries, workers, trace, s, keys);
    CountSame(trace, IsAction(), ActionIn(keys));
    CountSame(trace, IsEnqueue(), EnqueueIn(keys));
    CountSplit(trace, Advances(), IsEnter(), IsAction());
    EntersBounded(retries, workers, trace, s);
  }

  // Going on

  /** Some action that moves the run on is possible, now or once some time has passed. */
  ghost predicate CanAdvance(retries: int, s: State) {
    exists span: nat, l :: Advances()(l) && Enabled(Apply(retries, s, Tick(span)), l)
  }

  lemma UnquietCanAdvance(retries: int, workers: int, trace: seq<Label>, s: State)
    requires Run(retries, Init(workers), trace) == Some(s) && !s.done && workers > 0 && !Quiet(s)
    ensures CanAdvance(retries, s)
  {
    OrderlyRun(retries, workers, trace, s);
    var t := Apply(retries, s, Tick(0));
    if w: nat :| w < |s.workers| && s.workers[w].Busy() {
      BusyCanAct(t, w);
      var l: Label :| l.ByWorker() && l.HasKey() && l.w == w && Enabled(t, l);
      assert Advances()(l);
    } else if s.queue.waiting != map[] {
      var k :| k in s.queue.waiting;
      var span := Max(s.queue.waiting[k] - s.now, 0);
      assert Advances()(Release(k)) && Enabled(Apply(retries, s, Tick(span)), Release(k));
    } else {
      var l := if s.workers[0] == Idle then Take(0, s.queue.order[0]) else Enter(0);
      assert Advances()(l) && Enabled(t, l);
    }
  }

  /**
   Every accepted event is concluded, once nothing more is enqueued. In any run before the context is
   done, the actions that move it on number at most 7(R+1) for each call to Add or AddAfter, and one for
   each worker: so they run out. And when they have, so that none is possible any more however much
   time passes, every accepted event has been concluded by an attempt on its version or a later one.
   */
  lemma EventuallyConcluded(retries: nat, workers: int, trace: seq<Label>, s: State, i: nat)
    requires Run(retries, Init(workers), trace) == Some(s) && !s.done && workers > 0
    requires i < |trace| && trace[i].Accept?
    ensures Count(trace, Advances()) <= 7 * (retries + 1) * Count(trace, IsEnqueue()) + workers
    ensures CanAdvance(retries, s) || exists j :: i < j < |trace| && Concludes(trace[j], trace[i].key, trace[i].stamp)
  {
    AdvancesBounded(retries, workers, trace, s);
    OrderlyRun(retries, workers, trace, s);
    if Quiet(s) {
      QuietMeansConcluded(retries, workers, trace, s, i);
    } else {
      UnquietCanAdvance(retries, workers, trace, s);
    }
  }
}
