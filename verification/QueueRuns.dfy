/**
 Runs of queue operations: the retry budget over whole runs, and the monitor around the queue.
 */
module QueueRuns {
  import opened Wrappers
  import opened Sequences
  import opened WorkQueue

  datatype Op =
    | Add(key: Key, at: Time)
    | AddAfter(key: Key, delay: int, at: Time)
    | Requeue(key: Key, backoff: int, at: Time)
    | Forget(key: Key)
    | Get
    | Done(key: Key)
    | ShutDown
    | Len
    | Release(key: Key)  // the waiting loop, not a call
  {
    predicate Enqueues(k: Key) { (Add? || AddAfter? || Requeue?) && key == k }
  }

  datatype Reply = Unit | Rejected(rejected: bool) | Taken(got: Got) | Length(n: nat)

  /** One operation on the bare queue. */
  function Perform(retries: int, q: Queue, op: Op): (Queue, Reply) {
    match op
    case Add(k, _) => (q.Add(k), Unit)
    case AddAfter(k, delay, at) => (q.AddAfter(k, delay, at), Unit)
    case Requeue(k, backoff, at) => var r := q.Requeue(k, retries, backoff, at); (r.0, Rejected(r.1))
    case Forget(k) => (q.Forget(k), Unit)
    case Get => var r := q.Get(); (r.0, Taken(r.1))
    case Done(k) => (q.Done(k), Unit)
    case ShutDown => (q.ShutDown(), Unit)
    case Len => (q, Length(|q.order|))
    case Release(k) => (q.Release(k), Unit)
  }

  function After(retries: int, q: Queue, ops: seq<Op>): Queue {
    if ops == [] then q
    else Perform(retries, After(retries, q, ops[..|ops| - 1]), ops[|ops| - 1]).0
  }

  /** What operation `i` of the run replies. */
  function ReplyOf(retries: int, q: Queue, ops: seq<Op>, i: nat): Reply
    requires i < |ops|
  {
    Perform(retries, After(retries, q, ops[..i]), ops[i]).1
  }

  // The retry budget

  /** Requeues of `k` since its last external Forget. */
  function RequeuesSinceForget(ops: seq<Op>, k: Key): nat {
    if ops == [] then 0
    else
      var n, op := RequeuesSinceForget(ops[..|ops| - 1], k), ops[|ops| - 1];
      if op == Forget(k) then 0 else if op.Requeue? && op.key == k then n + 1 else n
  }

  lemma RemainderStep(n: nat, m: nat)
    requires m > 0
    ensures (n + 1) % m == if n % m + 1 == m then 0 else n % m + 1
  {
    var q, r := n / m, n % m;
    assert n == m * q + r;
    if r + 1 == m {
      assert n + 1 == m * (q + 1);
      RemainderUnique(n + 1, m, q + 1, 0);
    } else {
      RemainderUnique(n + 1, m, q, r + 1);
    }
  }

  lemma RemainderUnique(n: nat, m: nat, q: nat, r: nat)
    requires m > 0 && r < m && n == m * q + r
    ensures n % m == r
  {
    var d := n / m - q;
    assert m * d == r - n % m;
    assert d > 0 ==> m * d >= m;
    assert d < 0 ==> m * d <= m * -1;
  }

  lemma FailuresStep(retries: nat, q: Queue, op: Op, k: Key)
    ensures Perform(retries, q, op).0.Failures(k) ==
            if op == Forget(k) then 0
            else if op.Requeue? && op.key == k then if q.Failures(k) < retries then q.Failures(k) + 1 else 0
            else q.Failures(k)
  {
  }

  lemma {:induction false} FailuresAreRemainder(retries: nat, ops: seq<Op>, k: Key)
    ensures After(retries, EMPTY, ops).Failures(k) == RequeuesSinceForget(ops, k) % (retries + 1)
  {
    if ops != [] {
      var before := ops[..|ops| - 1];
      FailuresAreRemainder(retries, before, k);
      FailuresStep(retries, After(retries, EMPTY, before), ops[|ops| - 1], k);
      RemainderStep(RequeuesSinceForget(before, k), retries + 1);
    }
  }

  /**
   The n-th requeue of a key since it was last forgotten is rejected exactly when the number of
   retries is not negative and n is a multiple of it plus one, whatever is done to other keys.
   */
  lemma RetryBudget(retries: int, ops: seq<Op>, i: nat)
    requires i < |ops| && ops[i].Requeue?
    ensures ReplyOf(retries, EMPTY, ops, i).rejected
            <==> retries >= 0 && RequeuesSinceForget(ops[..i + 1], ops[i].key) % (retries + 1) == 0
    ensures retries >= 0 ==> After(retries, EMPTY, ops[..i + 1]).Failures(ops[i].key) <= retries
  {
    var k := ops[i].key;
    assert ops[..i + 1][..i] == ops[..i];
    if retries >= 0 {
      FailuresAreRemainder(retries, ops[..i], k);
      FailuresAreRemainder(retries, ops[..i + 1], k);
      RemainderStep(RequeuesSinceForget(ops[..i], k), retries + 1);
    }
  }

  // Keys handed out

  /** The key has been handed out, and Done has not been called for it since. */
  predicate InHands(retries: int, ops: seq<Op>, k: Key) {
    if ops == [] then false
    else
      var n := |ops| - 1;
      ReplyOf(retries, EMPTY, ops, n) == Taken(Item(k)) || (ops[n] != Done(k) && InHands(retries, ops[..n], k))
  }

  lemma ProcessingStep(retries: int, q: Queue, op: Op, k: Key)
    ensures var (r, reply) := Perform(retries, q, op);
            && (k in r.processing <==> reply == Taken(Item(k)) || (op != Done(k) && k in q.processing))
            && (r.down <==> q.down || op == ShutDown)
  {
  }

  /** A key is processed from the Get that hands it out to its Done, and the queue is down from its shutdown on. */
  lemma {:induction false} ProcessedUntilDone(retries: int, ops: seq<Op>, k: Key)
    ensures k in After(retries, EMPTY, ops).processing <==> InHands(retries, ops, k)
    ensures After(retries, EMPTY, ops).down <==> ShutDown in ops
  {
    if ops != [] {
      var n := |ops| - 1;
      ProcessedUntilDone(retries, ops[..n], k);
      ProcessingStep(retries, After(retries, EMPTY, ops[..n]), ops[n], k);
      assert ops == ops[..n] + [ops[n]];
    }
  }

  // The monitor

  datatype Event = AddEvent(requeue: bool) | GetEvent(since: Time)

  /** A monitored queue: the queue, the start time of each key enqueued, and what was recorded. */
  datatype Monitored = Monitored(queue: Queue, time: map<Key, Time>, log: seq<Event>) {
    function Enqueued(k: Key, at: Time, requeue: bool): Monitored {
      this.(time := if k in time then time else time[k := at], log := log + [AddEvent(requeue)])
    }

    function Took(k: Key): Monitored {
      if k in time then this.(time := time - {k}, log := log + [GetEvent(time[k])]) else this
    }
  }

  /** One operation on the monitored queue: the bare operation, timed and recorded. */
  function Observe(retries: int, m: Monitored, op: Op): (Monitored, Reply) {
    var (q, reply) := Perform(retries, m.queue, op);
    var n := match op
      case Add(k, at) => m.Enqueued(k, at, false)
      case AddAfter(k, _, at) => m.Enqueued(k, at, false)
      case Requeue(k, _, at) => m.Enqueued(k, at, true)
      case Get => if reply.got.Item? then m.Took(reply.got.key) else m
      case _ => m;
    (n.(queue := q), reply)
  }

  function Observed(retries: int, m: Monitored, ops: seq<Op>): Monitored {
    if ops == [] then m
    else Observe(retries, Observed(retries, m, ops[..|ops| - 1]), ops[|ops| - 1]).0
  }

  /** Monitoring is transparent: queue and replies are those of the bare queue, after every run. */
  lemma {:induction false} MonitorIsTransparent(retries: int, m: Monitored, ops: seq<Op>, op: Op)
    ensures Observed(retries, m, ops).queue == After(retries, m.queue, ops)
    ensures Observe(retries, Observed(retries, m, ops), op).1 == Perform(retries, After(retries, m.queue, ops), op).1
  {
    if ops != [] {
      MonitorIsTransparent(retries, m, ops[..|ops| - 1], op);
    }
  }

  /** For a call that enqueues, whether it is a requeue. */
  function EnqueuingOf(op: Op): seq<bool> {
    if op.Add? || op.AddAfter? then [false] else if op.Requeue? then [true] else []
  }

  /** For an add recorded, whether it was a requeue. */
  function AddOf(e: Event): seq<bool> {
    if e.AddEvent? then [e.requeue] else []
  }

  lemma AddEventStep(retries: int, m: Monitored, op: Op)
    ensures FlatMap(Observe(retries, m, op).0.log, AddOf) == FlatMap(m.log, AddOf) + EnqueuingOf(op)
  {
    var log := Observe(retries, m, op).0.log;
    if log != m.log {
      var e := log[|m.log|];
      assert log == m.log + [e];
      FlatMapConcat(m.log, [e], AddOf);
      FlatMapOne(e, AddOf);
    }
  }

  /** Every call that enqueues is recorded once, in order, rejected requeues included, and no other is. */
  lemma {:induction false} AddEvents(retries: int, m: Monitored, ops: seq<Op>)
    ensures FlatMap(Observed(retries, m, ops).log, AddOf) == FlatMap(m.log, AddOf) + FlatMap(ops, EnqueuingOf)
  {
    if ops != [] {
      var n := |ops| - 1;
      AddEvents(retries, m, ops[..n]);
      AddEventStep(retries, Observed(retries, m, ops[..n]), ops[n]);
      assert ops == ops[..n] + [ops[n]];
      FlatMapConcat(ops[..n], [ops[n]], EnqueuingOf);
      FlatMapOne(ops[n], EnqueuingOf);
    }
  }

  /** What an operation of a run means for the wait of a key. */
  datatype KeyEvent = Enqueued | HandedOut | Other

  /** The run of the bare queue, as the wait of `k` sees it. */
  function KeyEvents(retries: int, ops: seq<Op>, k: Key): seq<KeyEvent> {
    if ops == [] then []
    else
      var n := |ops| - 1;
      KeyEvents(retries, ops[..n], k)
      + [if ops[n].Enqueues(k) then Enqueued
         else if ReplyOf(retries, EMPTY, ops, n) == Taken(Item(k)) then HandedOut
         else Other]
  }

  ghost predicate TakenBetween(events: seq<KeyEvent>, i: nat, j: nat) {
    exists g :: i < g < j && g < |events| && events[g].HandedOut?
  }

  /** Event `j` is the first enqueuing since the key was last handed out. */
  ghost predicate FirstEnqueue(events: seq<KeyEvent>, j: nat) {
    && j < |events| && events[j].Enqueued?
    && !TakenBetween(events, j, |events|)
    && (forall e: nat | e < j && events[e].Enqueued? :: TakenBetween(events, e, j))
  }

  /** The index of the first enqueuing, computed along the run. */
  function First(events: seq<KeyEvent>): Option<nat> {
    if events == [] then None
    else
      var n := |events| - 1;
      match events[n]
      case HandedOut => None
      case Enqueued => var f := First(events[..n]); if f.Some? then f else Some(n)
      case Other => First(events[..n])
  }

  lemma {:induction false} FirstIsFirst(events: seq<KeyEvent>)
    ensures var f := First(events);
            if f.Some? then FirstEnqueue(events, f.value)
            else forall e: nat | e < |events| && events[e].Enqueued? :: TakenBetween(events, e, |events|)
  {
    if events != [] {
      var n := |events| - 1;
      var before := events[..n];
      FirstIsFirst(before);
      forall i: nat, j: nat | j <= n ensures TakenBetween(before, i, j) == TakenBetween(events, i, j) {
        assert forall g | i < g < j :: before[g] == events[g];
      }
    }
  }

  lemma FirstIsUnique(events: seq<KeyEvent>, j: nat)
    requires FirstEnqueue(events, j)
    ensures First(events) == Some(j)
  {
    FirstIsFirst(events);
  }

  const FRESH := Monitored(EMPTY, map[], [])

  function TimeOf(m: Monitored, k: Key): Option<Time> {
    if k in m.time then Some(m.time[k]) else None
  }

  lemma TimeStep(retries: int, m: Monitored, op: Op, k: Key)
    ensures TimeOf(Observe(retries, m, op).0, k) ==
            if op.Enqueues(k) then if TimeOf(m, k).Some? then TimeOf(m, k) else Some(op.at)
            else if Perform(retries, m.queue, op).1 == Taken(Item(k)) then None
            else TimeOf(m, k)
  {
  }

  lemma FirstStep(retries: int, ops: seq<Op>, k: Key)
    requires ops != [] && |KeyEvents(retries, ops[..|ops| - 1], k)| == |ops| - 1
    ensures var n := |ops| - 1;
            var f := First(KeyEvents(retries, ops[..n], k));
            && |KeyEvents(retries, ops, k)| == |ops|
            && First(KeyEvents(retries, ops, k)) ==
               if ops[n].Enqueues(k) then if f.Some? then f else Some(n)
               else if ReplyOf(retries, EMPTY, ops, n) == Taken(Item(k)) then None
               else f
  {
    assert KeyEvents(retries, ops, k)[..|ops| - 1] == KeyEvents(retries, ops[..|ops| - 1], k);
  }

  lemma {:induction false} TimeFollowsFirst(retries: int, ops: seq<Op>, k: Key)
    ensures |KeyEvents(retries, ops, k)| == |ops|
    ensures var f := First(KeyEvents(retries, ops, k));
            && (f.Some? ==> f.value < |ops| && ops[f.value].Enqueues(k))
            && TimeOf(Observed(retries, FRESH, ops), k) == if f.Some? then Some(ops[f.value].at) else None
  {
    if ops != [] {
      var n := |ops| - 1;
      TimeFollowsFirst(retries, ops[..n], k);
      FirstStep(retries, ops, k);
      MonitorIsTransparent(retries, FRESH, ops[..n], ops[n]);
      TimeStep(retries, Observed(retries, FRESH, ops[..n]), ops[n], k);
    }
  }

  /**
   A Get that hands out a key records a GetEvent exactly when the key has been enqueued since it was
   last handed out, rejected requeues included, and then with the time of the first such enqueuing.
   */
  lemma GetEvents(retries: int, ops: seq<Op>, i: nat)
    requires i < |ops| && ops[i] == Get && ReplyOf(retries, EMPTY, ops, i).got.Item?
    ensures var events := KeyEvents(retries, ops[..i], ReplyOf(retries, EMPTY, ops, i).got.key);
            var before, after := Observed(retries, FRESH, ops[..i]).log, Observed(retries, FRESH, ops[..i + 1]).log;
            && |events| == i
            && (forall j: nat | FirstEnqueue(events, j) ::
                  ops[j].Enqueues(ReplyOf(retries, EMPTY, ops, i).got.key) && after == before + [GetEvent(ops[j].at)])
            && ((forall e: nat | e < i && events[e].Enqueued? :: TakenBetween(events, e, i)) <==> after == before)
  {
    var k := ReplyOf(retries, EMPTY, ops, i).got.key;
    var events := KeyEvents(retries, ops[..i], k);
    assert ops[..i + 1][..i] == ops[..i];
    MonitorIsTransparent(retries, FRESH, ops[..i], Get);
    TimeFollowsFirst(retries, ops[..i], k);
    FirstIsFirst(events);
    forall j: nat | FirstEnqueue(events, j) ensures First(events) == Some(j) {
      FirstIsUnique(events, j);
    }
  }

  // The object

  /** The recorder, as far as the queue uses it: the log of what it was told. */
  class Recorder {
    var log: seq<Event>

    constructor ()
      ensures log == []
    {
      log := [];
    }

    method AddEvent(requeue: bool)
      modifies this
      ensures log == old(log) + [Event.AddEvent(requeue)]
    {
      log := log + [Event.AddEvent(requeue)];
    }

    method GetEvent(since: Time)
      modifies this
      ensures log == old(log) + [Event.GetEvent(since)]
    {
      log := log + [Event.GetEvent(since)];
    }
  }

  /** The queue that measures how long keys wait; what it does not override is the inner queue's. */
  class MonitorQueue {
    const inner: RetryQueue
    const recorder: Recorder
    var time: map<Key, Time>

    constructor (inner: RetryQueue, recorder: Recorder)
      ensures this.inner == inner && this.recorder == recorder && time == map[]
    {
      this.inner, this.recorder, time := inner, recorder, map[];
    }

    ghost function State(): Monitored
      reads this, inner.queue, recorder
    {
      Monitored(inner.State(), time, recorder.log)
    }

    ghost predicate Valid()
      reads inner.queue
    {
      inner.Valid()
    }

    method Add(k: Key, now: Time)
      requires Valid()
      modifies this, inner.queue, recorder
      ensures Valid() && inner.State() == old(inner.State()).Add(k)
      ensures (State(), Unit) == Observe(inner.retries, old(State()), Op.Add(k, now))
    {
      LoadOrStore(k, now);
      recorder.AddEvent(false);
      inner.Add(k);
    }

    method AddAfter(k: Key, delay: int, now: Time)
      requires Valid()
      modifies this, inner.queue, recorder
      ensures Valid() && inner.State() == old(inner.State()).AddAfter(k, delay, now)
      ensures (State(), Unit) == Observe(inner.retries, old(State()), Op.AddAfter(k, delay, now))
    {
      LoadOrStore(k, now);
      recorder.AddEvent(false);
      inner.AddAfter(k, delay, now);
    }

    method Requeue(k: Key, backoff: int, now: Time) returns (rejected: bool)
      requires Valid()
      modifies this, inner.queue, recorder
      ensures Valid() && (inner.State(), rejected) == old(inner.State()).Requeue(k, inner.retries, backoff, now)
      ensures (State(), Rejected(rejected)) == Observe(inner.retries, old(State()), Op.Requeue(k, backoff, now))
    {
      LoadOrStore(k, now);
      recorder.AddEvent(true);
      rejected := inner.Requeue(k, backoff, now);
    }

    method Get() returns (got: Got)
      requires Valid()
      modifies this, inner.queue, recorder
      ensures Valid() && (inner.State(), got) == old(inner.State()).Get()
      ensures (State(), Taken(got)) == Observe(inner.retries, old(State()), Op.Get)
    {
      got := inner.Get();
      if got.Item? && got.key in time {
        var since := time[got.key];
        time := time - {got.key};
        recorder.GetEvent(since);
      }
    }

    method LoadOrStore(k: Key, now: Time)
      modifies this
      ensures time == if k in old(time) then old(time) else old(time)[k := now]
    {
      if k !in time {
        time := time[k := now];
      }
    }
  }
}
