/**
 The two ends of the pipeline as the program runs them: the event handler that enqueues keys, and
 the processor whose workers take them. Their methods are proved to perform the labels of `Pipeline`.
 */
module Processor {
  import opened Wrappers
  import opened Sequences
  import opened WorkQueue
  import opened Objects
  import opened Filters
  import D = Delays
  import P = Pipeline

  datatype Notice = BadKey | LookupFailed(key: Key) | Panicked(key: Key) | Dropped(key: Key)

  /** The handler, as far as it is told about errors. */
  class Handler {
    var notices: seq<Notice>

    constructor ()
      ensures notices == []
    {
      notices := [];
    }

    method Notify(n: Notice)
      modifies this
      ensures notices == old(notices) + [n]
    {
      notices := notices + [n];
    }
  }

  /** An event with a key that passes the filter. */
  predicate Accepts(filter: Option<Filter>, op: Op, prev: Any, obj: Any, key: Option<Key>) {
    key.Some? && Passes(filter, op, Unwrap(prev), Unwrap(obj))
  }

  function ChosenDelay(delay: D.Delay, op: Op, prev: Option<Resource>, obj: Option<Resource>, key: Key): int {
    delay.DelayOf(Utf8(key), op == OpUpdate && IsResync(prev, obj))
  }

  /** An accepted event acts on the queue like its label, any other event not at all. */
  function Delivered(
    filter: Option<Filter>, delay: D.Delay, op: Op, prev: Any, obj: Any, key: Option<Key>, now: Time, q: Queue
  ): Queue {
    if Accepts(filter, op, prev, obj, key) then
      P.Effect(q, P.Accept(key.value, 0, ChosenDelay(delay, op, Unwrap(prev), Unwrap(obj), key.value), now))
    else q
  }

  /** The key is ready after the delay, or by an earlier deadline it had, and nothing else is changed. */
  ghost predicate ReadyAfter(q: Queue, r: Queue, k: Key, d: int, now: Time) {
    && (if d <= 0 then k in r.dirty else (k in r.dirty <==> k in q.dirty) && k in r.waiting)
    && (d > 0 ==> r.waiting[k] == if k in q.waiting && q.waiting[k] <= now + d then q.waiting[k] else now + d)
    && (forall j | j != k || d <= 0 :: j in r.waiting <==> j in q.waiting)
    && (forall j | j in q.waiting && (j != k || d <= 0) :: r.waiting[j] == q.waiting[j])
    && (forall j | j != k :: j in r.dirty <==> j in q.dirty)
    && r.failures == q.failures && r.processing == q.processing && r.down == q.down
  }

  /**
   What an event does to the queue: nothing without a key, against a filter, or after shutdown; otherwise
   its key is ready after the jitter, for an update without a change and with a window, or the debounce.
   */
  ghost predicate Reacts(
    filters: seq<Option<Filter>>, delay: D.Delay, op: Op, prev: Any, obj: Any, key: Option<Key>, now: Time,
    q: Queue, r: Queue
  ) {
    if key.None? || q.down || exists f :: f in filters && f.Some? && !f.value(op, Unwrap(prev), Unwrap(obj)) then
      r == q
    else
      var d := if Unchanged(op, Unwrap(prev), Unwrap(obj)) && delay.resync > 0 then delay.JitterOf(Utf8(key.value))
               else delay.debounce;
      ReadyAfter(q, r, key.value, d, now)
  }

  lemma AddAfterIsReady(q: Queue, k: Key, d: int, now: Time)
    requires !q.down
    ensures ReadyAfter(q, if d > 0 then q.AddAfter(k, d, now) else q.Add(k), k, d, now)
  {
  }

  /** The delay of an event is the jitter of its key, in the window, for a replay, and the debounce otherwise. */
  lemma ChosenDelayIs(delay: D.Delay, op: Op, prev: Option<Resource>, obj: Option<Resource>, key: Key)
    ensures var d := ChosenDelay(delay, op, prev, obj, key);
            if Unchanged(op, prev, obj) && delay.resync > 0 then
              d == delay.JitterOf(Utf8(key)) && 0 <= d < delay.resync
            else d == delay.debounce
  {
    D.JitterInWindow(delay, Utf8(key));
  }

  lemma DeliveredReacts(
    filters: seq<Option<Filter>>, delay: D.Delay, op: Op, prev: Any, obj: Any, key: Option<Key>, now: Time, q: Queue
  )
    ensures Reacts(filters, delay, op, prev, obj, key, now, q,
                   Delivered(Combine(filters), delay, op, prev, obj, key, now, q))
  {
    AllPass(filters, op, Unwrap(prev), Unwrap(obj));
    if key.Some? {
      var d := ChosenDelay(delay, op, Unwrap(prev), Unwrap(obj), key.value);
      ChosenDelayIs(delay, op, Unwrap(prev), Unwrap(obj), key.value);
      if !q.down {
        AddAfterIsReady(q, key.value, d, now);
      }
    }
  }

  class ResourceEventHandler {
    const handler: Handler
    const queue: RetryQueue
    const delay: D.Delay
    const filter: Option<Filter>
    ghost const filters: seq<Option<Filter>>

    ghost predicate Valid()
      reads queue.queue
    {
      queue.Valid() && filter == Combine(filters)
    }

    constructor (handler: Handler, queue: RetryQueue, delay: D.Delay, filters: seq<Option<Filter>>)
      requires queue.Valid()
      ensures Valid() && this.handler == handler && this.queue == queue && this.delay == delay
      ensures this.filters == filters
    {
      this.handler, this.queue, this.delay, this.filter := handler, queue, delay, Combine(filters);
      this.filters := filters;
    }

    method OnAdd(obj: Any, now: Time)
      requires Valid()
      modifies queue.queue, handler
      ensures Valid()
      ensures Reacts(filters, delay, OpAdd, Nil, obj, MetaNamespaceKey(obj), now, old(queue.State()), queue.State())
      ensures handler.notices == old(handler.notices) + if MetaNamespaceKey(obj).None? then [BadKey] else []
    {
      Enqueue(OpAdd, Nil, obj, MetaNamespaceKey(obj), now);
    }

    method OnUpdate(prev: Any, obj: Any, now: Time)
      requires Valid()
      modifies queue.queue, handler
      ensures Valid()
      ensures Reacts(filters, delay, OpUpdate, prev, obj, MetaNamespaceKey(obj), now, old(queue.State()), queue.State())
      ensures handler.notices == old(handler.notices) + if MetaNamespaceKey(obj).None? then [BadKey] else []
    {
      Enqueue(OpUpdate, prev, obj, MetaNamespaceKey(obj), now);
    }

    method OnDelete(obj: Any, now: Time)
      requires Valid()
      modifies queue.queue, handler
      ensures Valid()
      ensures Reacts(filters, delay, OpDelete, Nil, obj, DeletionKey(obj), now, old(queue.State()), queue.State())
      ensures handler.notices == old(handler.notices) + if DeletionKey(obj).None? then [BadKey] else []
    {
      Enqueue(OpDelete, Nil, obj, DeletionKey(obj), now);
    }

    /** Acts on the queue like the label of an accepted event in the pipeline, and so as `Reacts` says. */
    method Enqueue(op: Op, prev: Any, obj: Any, key: Option<Key>, now: Time)
      requires Valid()
      modifies queue.queue, handler
      ensures Valid()
      ensures queue.State() == Delivered(filter, delay, op, prev, obj, key, now, old(queue.State()))
      ensures Reacts(filters, delay, op, prev, obj, key, now, old(queue.State()), queue.State())
      ensures handler.notices == old(handler.notices) + if key.None? then [BadKey] else []
    {
      DeliveredReacts(filters, delay, op, prev, obj, key, now, queue.State());
      if key.None? {
        handler.Notify(BadKey);
        return;
      }
      if !Passes(filter, op, Unwrap(prev), Unwrap(obj)) {
        return;
      }
      var d := DelayFor(op, Unwrap(prev), Unwrap(obj), key.value);
      Submit(key.value, d, now);
    }

    method DelayFor(op: Op, before: Option<Resource>, after: Option<Resource>, key: Key) returns (d: int)
      ensures d == ChosenDelay(delay, op, before, after, key)
    {
      d := delay.Choose(Utf8(key), op == OpUpdate && IsResync(before, after));
    }

    method Submit(key: Key, d: int, now: Time)
      requires queue.Valid()
      modifies queue.queue
      ensures queue.Valid() && queue.State() == P.Effect(old(queue.State()), P.Accept(key, 0, d, now))
    {
      if d > 0 {
        queue.AddAfter(key, d, now);
      } else {
        queue.Add(key);
      }
    }
  }

  /** With `ResourceVersionChanged` in the chain, an event that passes is never jittered. */
  lemma VersionFilterDisablesJitter(
    filters: seq<Option<Filter>>, delay: D.Delay, op: Op, prev: Option<Resource>, obj: Option<Resource>, key: Key
  )
    requires Some(ResourceVersionChanged()) in filters
    requires forall f | f in filters && f.Some? :: f.value(op, prev, obj)
    ensures ChosenDelay(delay, op, prev, obj, key) == delay.debounce
  {
    assert Some(ResourceVersionChanged()).value(op, prev, obj);
    VersionFilterDropsIff(op, prev, obj);
    ChosenDelayIs(delay, op, prev, obj, key);
  }

  // Processing

  /** What the cache, the handler and the rate limiter do in one attempt. */
  datatype Attempt = Attempt(stamp: nat, found: P.Found, answer: P.Answer, backoff: int) {
    predicate Ok() {
      found.Missing? || (found.Object? && (answer.Success? || answer.Schedule?))
    }
  }

  /** The last action of a failed attempt in Requeue, for a key with the given number of failures. */
  function RequeueLabel(retries: int, failures: nat, w: nat, k: Key, at: Time, x: Attempt): P.Label {
    if WithinBudget(retries, failures) then P.Retry(w, k, x.stamp, x.backoff, at) else P.Drop(w, k, x.stamp)
  }

  /** The actions from the return of the handler on. */
  function ReturnLabels(retries: int, failures: nat, w: nat, k: Key, at: Time, x: Attempt): seq<P.Label> {
    [P.Return(w, k, x.stamp, x.answer, at)]
    + if x.answer.Error? then [RequeueLabel(retries, failures, w, k, at, x)] else []
  }

  /** The actions of `handle`. */
  function HandleLabels(retries: int, failures: nat, w: nat, k: Key, at: Time, x: Attempt): seq<P.Label> {
    [P.Lookup(w, k, x.stamp, x.found)]
    + if x.found.Object? then ReturnLabels(retries, failures, w, k, at, x) else []
  }

  /** The actions that end `process`: Forget after a success, and Done in any case. */
  function EndLabels(ok: bool, w: nat, k: Key): seq<P.Label> {
    (if ok then [P.Settle(w, k)] else []) + [P.Finish(w, k)]
  }

  /** The actions of `process` on a key, after its Get. */
  function ProcessLabels(retries: int, failures: nat, w: nat, k: Key, at: Time, x: Attempt): seq<P.Label> {
    HandleLabels(retries, failures, w, k, at, x) + EndLabels(x.Ok(), w, k)
  }

  function Effects(q: Queue, labels: seq<P.Label>): Queue {
    Fold(q, labels, P.Effect)
  }

  function NoticeOf(l: P.Label): seq<Notice> {
    match l
    case Lookup(_, k, _, Failed) => [LookupFailed(k)]
    case Return(_, k, _, Panic, _) => [Panicked(k)]
    case Drop(_, k, _) => [Dropped(k)]
    case _ => []
  }

  /** The errors the handler is told about. */
  function Notices(labels: seq<P.Label>): seq<Notice> {
    FlatMap(labels, NoticeOf)
  }

  lemma EffectsCons(q: Queue, l: P.Label, rest: seq<P.Label>)
    ensures Effects(q, [l] + rest) == Effects(P.Effect(q, l), rest)
    ensures Notices([l] + rest) == NoticeOf(l) + Notices(rest)
  {
    assert ([l] + rest)[1..] == rest;
  }

  lemma EffectsConcat(q: Queue, a: seq<P.Label>, b: seq<P.Label>)
    ensures Effects(q, a + b) == Effects(Effects(q, a), b)
    ensures Notices(a + b) == Notices(a) + Notices(b)
  {
    FoldConcat(q, a, b, P.Effect);
    FlatMapConcat(a, b, NoticeOf);
  }

  /** The queue after the handler has returned. */
  function Returned(q: Queue, retries: int, k: Key, at: Time, answer: P.Answer, backoff: int): Queue {
    match answer
    case Success => q
    case Schedule(next) => q.AddAfter(k, P.Max(next - at, 0), at)
    case Error => q.Requeue(k, retries, backoff, at).0
    case Panic => q
  }

  lemma ReturnEffects(q: Queue, retries: int, w: nat, k: Key, at: Time, x: Attempt)
    ensures var labels := ReturnLabels(retries, q.Failures(k), w, k, at, x);
            && Effects(q, labels) == Returned(q, retries, k, at, x.answer, x.backoff)
            && Notices(labels) ==
               if x.answer.Panic? then [Panicked(k)]
               else if x.answer.Error? && !WithinBudget(retries, q.Failures(k)) then [Dropped(k)]
               else []
  {
    var result, act := P.Return(w, k, x.stamp, x.answer, at), RequeueLabel(retries, q.Failures(k), w, k, at, x);
    EffectsCons(q, result, if x.answer.Error? then [act] else []);
    if x.answer.Error? {
      assert [act] == [act] + [];
      EffectsCons(q, act, []);
    }
  }

  /** What `handle` comes to, case by case. */
  lemma HandleEffects(q: Queue, retries: int, w: nat, k: Key, at: Time, x: Attempt)
    ensures var labels := HandleLabels(retries, q.Failures(k), w, k, at, x);
            && Effects(q, labels) ==
               (if x.found.Object? then Returned(q, retries, k, at, x.answer, x.backoff) else q)
            && Notices(labels) ==
               match x.found
               case Failed => [LookupFailed(k)]
               case Missing => []
               case Object =>
                 if x.answer.Panic? then [Panicked(k)]
                 else if x.answer.Error? && !WithinBudget(retries, q.Failures(k)) then [Dropped(k)]
                 else []
  {
    var rest := if x.found.Object? then ReturnLabels(retries, q.Failures(k), w, k, at, x) else [];
    EffectsCons(q, P.Lookup(w, k, x.stamp, x.found), rest);
    ReturnEffects(q, retries, w, k, at, x);
  }

  lemma EndEffects(q: Queue, ok: bool, w: nat, k: Key)
    ensures Effects(q, EndLabels(ok, w, k)) == (if ok then q.Forget(k) else q).Done(k)
    ensures Notices(EndLabels(ok, w, k)) == []
  {
    var end := P.Finish(w, k);
    assert [] + [end] == [end] == [end] + [];
    EffectsCons(if ok then q.Forget(k) else q, end, []);
    EffectsCons(q, P.Settle(w, k), [end]);
  }

  lemma ReturnedKeepsProcessing(q: Queue, retries: int, k: Key, at: Time, answer: P.Answer, backoff: int)
    ensures Returned(q, retries, k, at, answer, backoff).processing == q.processing
  {
  }

  lemma HandleKeepsProcessing(q: Queue, retries: int, w: nat, k: Key, at: Time, x: Attempt)
    ensures Effects(q, HandleLabels(retries, q.Failures(k), w, k, at, x)).processing == q.processing
  {
    HandleEffects(q, retries, w, k, at, x);
    ReturnedKeepsProcessing(q, retries, k, at, x.answer, x.backoff);
  }

  /** What `process` comes to, after `handle`. */
  lemma ProcessEffects(q: Queue, retries: int, w: nat, k: Key, at: Time, x: Attempt)
    ensures var handle, process := HandleLabels(retries, q.Failures(k), w, k, at, x),
                                   ProcessLabels(retries, q.Failures(k), w, k, at, x);
            && Effects(q, handle).processing == q.processing
            && Effects(q, process) == (if x.Ok() then Effects(q, handle).Forget(k) else Effects(q, handle)).Done(k)
            && Notices(process) == Notices(handle)
  {
    var handle := HandleLabels(retries, q.Failures(k), w, k, at, x);
    HandleKeepsProcessing(q, retries, w, k, at, x);
    EffectsConcat(q, handle, EndLabels(x.Ok(), w, k));
    EndEffects(Effects(q, handle), x.Ok(), w, k);
  }

  /** The queue after one turn of a worker: nothing happens without a key to take. */
  function Turn(retries: int, q: Queue, w: nat, x: Attempt, at: Time): Queue {
    var (p, got) := q.Get();
    if got.Item? then Effects(p, ProcessLabels(retries, p.Failures(got.key), w, got.key, at, x)) else q
  }

  function Turns(retries: int, q: Queue, w: nat, script: seq<Attempt>, at: Time): Queue {
    if script == [] then q
    else Turn(retries, Turns(retries, q, w, script[..|script| - 1], at), w, script[|script| - 1], at)
  }

  /** A queue that is down loses the key processed, and gets nothing in return. */
  lemma ProcessWhenDown(q: Queue, retries: int, w: nat, at: Time, x: Attempt)
    requires q.Inv() && q.down && q.order != []
    ensures var r := Turn(retries, q, w, x, at);
            && r.down && r.processing == q.processing && q.order[0] in q.dirty && r.dirty == q.dirty - {q.order[0]}
  {
    var k, p := q.order[0], q.Get().0;
    assert k in q.order;
    HandleEffects(p, retries, w, k, at, x);
    ProcessEffects(p, retries, w, k, at, x);
  }

  /** After some turns alone and after shutdown, one dirty key less for each. */
  predicate Draining(q0: Queue, q: Queue, turns: nat) {
    q0.down && q0.processing == {} ==> q.down && q.processing == {} && |q.dirty| == |q0.dirty| - turns
  }

  lemma DrainingTurn(q0: Queue, q: Queue, turns: nat, retries: int, w: nat, at: Time, x: Attempt)
    requires q.Inv() && Draining(q0, q, turns)
    ensures q.order != [] ==> Draining(q0, Turn(retries, q, w, x, at), turns + 1)
    ensures q.order == [] && q0.down && q0.processing == {} ==> q.dirty == {}
  {
    if q0.down && q0.processing == {} {
      if q.order != [] {
        ProcessWhenDown(q, retries, w, at, x);
      } else {
        assert forall k | k in q.dirty :: k in q.order;
      }
    }
  }

  class Processor {
    const handler: Handler
    const queue: RetryQueue

    constructor (handler: Handler, queue: RetryQueue)
      ensures this.handler == handler && this.queue == queue
    {
      this.handler, this.queue := handler, queue;
    }

    /** Looks up and handles a key; a panic ends up in the same place as an error, notified. */
    method Handle(ghost w: nat, k: Key, x: Attempt, now: Time) returns (ok: bool)
      requires queue.Valid()
      modifies queue.queue, handler
      ensures queue.Valid() && ok == x.Ok()
      ensures var labels := HandleLabels(queue.retries, old(queue.State()).Failures(k), w, k, now, x);
              && queue.State() == Effects(old(queue.State()), labels)
              && handler.notices == old(handler.notices) + Notices(labels)
    {
      HandleEffects(queue.State(), queue.retries, w, k, now, x);
      match x.found {
        case Failed =>
          handler.Notify(LookupFailed(k));
          return false;
        case Missing =>
          return true;
        case Object =>
      }
      match x.answer {
        case Panic =>
          handler.Notify(Panicked(k));
          return false;
        case Error =>
          var rejected := queue.Requeue(k, x.backoff, now);
          if rejected {
            handler.Notify(Dropped(k));
          }
          return false;
        case Schedule(next) =>
          var delay := next - now;
          if delay < 0 {
            delay := 0;
          }
          queue.AddAfter(k, delay, now);
          return true;
        case Success =>
          return true;
      }
    }

    /** Processes one key, if the queue hands one out, by the labels of a worker in the pipeline. */
    method ProcessItem(ghost w: nat, x: Attempt, now: Time) returns (got: Got)
      requires queue.Valid()
      modifies queue.queue, handler
      ensures queue.Valid() && got == old(queue.State()).Get().1
      ensures queue.State() == Turn(queue.retries, old(queue.State()), w, x, now)
      ensures queue.State() ==
              if got.Item? then
                Effects(P.Effect(old(queue.State()), P.Take(w, got.key)),
                        ProcessLabels(queue.retries, old(queue.State()).Failures(got.key), w, got.key, now, x))
              else old(queue.State())
      ensures handler.notices == old(handler.notices) +
              if got.Item? then
                Notices(ProcessLabels(queue.retries, old(queue.State()).Failures(got.key), w, got.key, now, x))
              else []
    {
      got := queue.Get();
      if !got.Item? {
        return;
      }
      var k := got.key;
      ProcessEffects(queue.State(), queue.retries, w, k, now, x);
      var ok := Handle(w, k, x, now);
      if ok {
        queue.Forget(k);
      }
      queue.Done(k);
    }

    /**
     The loop of a worker, for as many turns as `script` has attempts, or until there is nothing to
     take. After shutdown, and alone, it leaves the loop once it has processed each dirty key.
     */
    method Process(ghost w: nat, script: seq<Attempt>, now: Time) returns (exited: bool, turns: nat)
      requires queue.Valid()
      modifies queue.queue, handler
      ensures queue.Valid() && turns <= |script|
      ensures queue.State() == Turns(queue.retries, old(queue.State()), w, script[..turns], now)
      ensures turns < |script| ==> queue.State().order == []
      ensures exited <==> turns < |script| && queue.State().down
      ensures old(queue.State()).down && old(queue.State()).processing == {} ==>
                && (exited <==> |old(queue.State()).dirty| < |script|)
                && |queue.State().dirty| == |old(queue.State()).dirty| - turns
                && (exited ==> queue.State().dirty == {})
    {
      exited, turns := false, 0;
      while turns < |script|
        invariant queue.Valid() && turns <= |script|
        invariant queue.State() == Turns(queue.retries, old(queue.State()), w, script[..turns], now)
        invariant Draining(old(queue.State()), queue.State(), turns)
      {
        DrainingTurn(old(queue.State()), queue.State(), turns, queue.retries, w, now, script[turns]);
        var got := ProcessItem(w, script[turns], now);
        if !got.Item? {
          return got.Closed?, turns;
        }
        assert script[..turns + 1][..turns] == script[..turns];
        turns := turns + 1;
      }
    }
  }

  // The objects and the transition system

  /** Worker `w` has taken `k`, and the lookup of the attempt is what the cache can answer. */
  predicate CanLookup(s: P.State, w: nat, k: Key, x: Attempt) {
    && w < |s.workers| && s.workers[w] == P.Looking(k) && x.stamp == s.Stamp(k)
    && (x.found.Object? ==> k in s.cache) && (x.found.Missing? ==> k !in s.cache)
  }

  lemma {:induction false} RunCons(retries: int, s: P.State, l: P.Label, rest: seq<P.Label>)
    requires P.Enabled(s, l)
    ensures P.Run(retries, s, [l] + rest) == P.Run(retries, P.Apply(retries, s, l), rest)
  {
    var n := |rest| - 1;
    if rest == [] {
      assert [l] + rest == [l];
    } else {
      RunCons(retries, s, l, rest[..n]);
      assert ([l] + rest)[..n + 1] == [l] + rest[..n];
    }
  }

  lemma {:induction false} RunConcat(retries: int, s: P.State, a: seq<P.Label>, b: seq<P.Label>, t: P.State)
    requires P.Run(retries, s, a) == Some(t)
    ensures P.Run(retries, s, a + b) == P.Run(retries, t, b)
  {
    var n := |b| - 1;
    if b == [] {
      assert a + b == a;
    } else {
      RunConcat(retries, s, a, b[..n], t);
      assert (a + b)[..|a + b| - 1] == a + b[..n];
    }
  }

  /** The state when worker `w` has come to stage `p`, and the queue to `q`. */
  function Moved(s: P.State, w: nat, p: P.Stage, q: Queue): P.State
    requires w < |s.workers|
  {
    s.(workers := s.workers[w := p], queue := q)
  }

  /** One action of worker `w`. */
  lemma MoveAgain(retries: int, s: P.State, w: nat, p: P.Stage, q: Queue, l: P.Label, rest: seq<P.Label>)
    requires w < |s.workers| && l.ByWorker() && l.w == w && P.Enabled(Moved(s, w, p, q), l)
    ensures var next := P.Next(retries, if l.Return? then q.Failures(l.key) else 0, l);
            P.Run(retries, Moved(s, w, p, q), [l] + rest) ==
            P.Run(retries, Moved(s, w, next, P.Effect(q, l)), rest)
  {
    var t := P.Apply(retries, Moved(s, w, p, q), l);
    assert t.workers == s.workers[w := t.workers[w]];
    RunCons(retries, Moved(s, w, p, q), l, rest);
  }

  lemma ReturnIsRun(retries: int, s: P.State, w: nat, k: Key, x: Attempt)
    requires w < |s.workers|
    ensures var q, labels := s.queue, ReturnLabels(retries, s.queue.Failures(k), w, k, s.now, x);
            P.Run(retries, Moved(s, w, P.Handling(k, x.stamp), q), labels) ==
            Some(Moved(s, w, if x.answer.Success? || x.answer.Schedule? then P.Settling(k) else P.Finishing(k),
                       Effects(q, labels)))
  {
    var q := s.queue;
    var result, act := P.Return(w, k, x.stamp, x.answer, s.now), RequeueLabel(retries, q.Failures(k), w, k, s.now, x);
    var rest := if x.answer.Error? then [act] else [];
    MoveAgain(retries, s, w, P.Handling(k, x.stamp), q, result, rest);
    EffectsCons(q, result, rest);
    if x.answer.Error? {
      assert [act] == [act] + [];
      MoveAgain(retries, s, w, P.Next(retries, q.Failures(k), result), q, act, []);
      EffectsCons(q, act, []);
    }
  }

  lemma HandleIsRun(retries: int, s: P.State, w: nat, k: Key, x: Attempt)
    requires CanLookup(s, w, k, x)
    ensures var labels := HandleLabels(retries, s.queue.Failures(k), w, k, s.now, x);
            P.Run(retries, s, labels) ==
            Some(Moved(s, w, if x.Ok() then P.Settling(k) else P.Finishing(k), Effects(s.queue, labels)))
  {
    var lookup := P.Lookup(w, k, x.stamp, x.found);
    var rest := if x.found.Object? then ReturnLabels(retries, s.queue.Failures(k), w, k, s.now, x) else [];
    assert s == Moved(s, w, P.Looking(k), s.queue);
    MoveAgain(retries, s, w, P.Looking(k), s.queue, lookup, rest);
    EffectsCons(s.queue, lookup, rest);
    ReturnIsRun(retries, s, w, k, x);
  }

  lemma EndIsRun(retries: int, s: P.State, w: nat, k: Key, ok: bool, q: Queue)
    requires w < |s.workers|
    ensures P.Run(retries, Moved(s, w, if ok then P.Settling(k) else P.Finishing(k), q), EndLabels(ok, w, k)) ==
            Some(Moved(s, w, P.Idle, Effects(q, EndLabels(ok, w, k))))
  {
    var end := P.Finish(w, k);
    assert [] + [end] == [end] == [end] + [];
    if ok {
      MoveAgain(retries, s, w, P.Settling(k), q, P.Settle(w, k), [end]);
      EffectsCons(q, P.Settle(w, k), [end]);
    }
    var r := if ok then q.Forget(k) else q;
    MoveAgain(retries, s, w, P.Finishing(k), r, end, []);
    EffectsCons(r, end, []);
  }

  /**
   What a worker does with the key it has taken is a legal run of the pipeline, from the cache lookup
   to the Done that ends it, on every path: the worker is idle again, and the others are not touched.
   */
  lemma ProcessIsRun(retries: int, s: P.State, w: nat, k: Key, x: Attempt)
    requires CanLookup(s, w, k, x)
    ensures var labels := ProcessLabels(retries, s.queue.Failures(k), w, k, s.now, x);
            P.Run(retries, s, labels) == Some(Moved(s, w, P.Idle, Effects(s.queue, labels)))
  {
    var handle := HandleLabels(retries, s.queue.Failures(k), w, k, s.now, x);
    var handled := Effects(s.queue, handle);
    HandleIsRun(retries, s, w, k, x);
    RunConcat(retries, s, handle, EndLabels(x.Ok(), w, k),
              Moved(s, w, if x.Ok() then P.Settling(k) else P.Finishing(k), handled));
    EndIsRun(retries, s, w, k, x.Ok(), handled);
    EffectsConcat(s.queue, handle, EndLabels(x.Ok(), w, k));
  }

  lemma ReturnedPending(q: Queue, retries: int, k: Key, at: Time, answer: P.Answer, backoff: int)
    requires !q.down && k !in q.dirty && k !in q.waiting
    ensures var r := Returned(q, retries, k, at, answer, backoff);
            && (k in r.dirty || k in r.waiting <==>
                answer.Schedule? || (answer.Error? && WithinBudget(retries, q.Failures(k))))
            && (answer.Panic? ==> r == q)
  {
  }

  lemma DoneKeepsPending(q: Queue, k: Key)
    ensures q.Done(k).dirty == q.dirty && q.Done(k).waiting == q.waiting && q.Done(k).failures == q.failures
    ensures q.Forget(k).Done(k).dirty == q.dirty && q.Forget(k).Done(k).waiting == q.waiting
  {
  }

  /**
   Not every failure is retried: of a key with nothing else pending, the one attempt leaves the key
   pending exactly when the handler asked for it, or returned an error within the budget. A panic or
   a failed lookup does not, though it does not reset the failures counted either.
   */
  lemma PendingAfterIff(retries: int, q: Queue, w: nat, k: Key, at: Time, x: Attempt)
    requires !q.down && k !in q.dirty && k !in q.waiting
    ensures var r := Effects(q, ProcessLabels(retries, q.Failures(k), w, k, at, x));
            && (k in r.dirty || k in r.waiting <==>
                x.found.Object? && (x.answer.Schedule? || (x.answer.Error? && WithinBudget(retries, q.Failures(k)))))
            && (x.found.Failed? || (x.found.Object? && x.answer.Panic?) ==> r.Failures(k) == q.Failures(k))
  {
    HandleEffects(q, retries, w, k, at, x);
    ProcessEffects(q, retries, w, k, at, x);
    var handled := Effects(q, HandleLabels(retries, q.Failures(k), w, k, at, x));
    ReturnedPending(q, retries, k, at, x.answer, x.backoff);
    DoneKeepsPending(handled, k);
  }

  /** So a single panic loses the key, against what the comment on `process` promises. */
  lemma PanicIsNotRetried(retries: int, k: Key, at: Time)
    ensures var (q, got) := EMPTY.Add(k).Get();
            var labels := ProcessLabels(retries, 0, 0, k, at, Attempt(0, P.Object, P.Panic, 0));
            got == Item(k) && Effects(q, labels) == EMPTY && Notices(labels) == [Panicked(k)]
  {
    var q := EMPTY.Add(k).Get().0;
    HandleEffects(q, retries, 0, k, at, Attempt(0, P.Object, P.Panic, 0));
    ProcessEffects(q, retries, 0, k, at, Attempt(0, P.Object, P.Panic, 0));
  }
}
