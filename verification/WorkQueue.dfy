/**
 The work queue below every controller queue, and the retry budget put on top of it.

 `Queue` is the value of a queue: its functions say what each operation does. `RateLimitingQueue`
 and `RetryQueue` are the objects, whose methods update fields and are proved against `Queue`.
 */
module WorkQueue {
  type Key = string
  type Time = int

  /** What a call to `Get` comes back with; a blocked call does not come back in this state. */
  datatype Got = Item(key: Key) | Closed | Blocked

  datatype Queue = Queue(
    order: seq<Key>,          // keys ready to be handed out, first in first out
    dirty: set<Key>,          // keys that need processing
    processing: set<Key>,     // keys handed out and not done
    waiting: map<Key, Time>,  // keys waiting for a deadline
    failures: map<Key, nat>,  // rate-limited adds since the last forget
    down: bool
  ) {
    function Failures(k: Key): nat {
      if k in failures then failures[k] else 0
    }

    /** The queue hands out each key that is dirty and not being processed, once. */
    ghost predicate Inv() {
      && (forall i, j | 0 <= i < j < |order| :: order[i] != order[j])
      && (forall k :: k in order <==> k in dirty && k !in processing)
    }

    function Add(k: Key): Queue {
      if down || k in dirty then this
      else if k in processing then this.(dirty := dirty + {k})
      else this.(dirty := dirty + {k}, order := order + [k])
    }

    /** Repeated calls keep the earliest deadline. */
    function AddAfter(k: Key, delay: int, now: Time): Queue {
      if down then this
      else if delay <= 0 then Add(k)
      else if k in waiting && waiting[k] <= now + delay then this
      else this.(waiting := waiting[k := now + delay])
    }

    /** The waiting loop moves an entry whose deadline has passed. */
    function Release(k: Key): Queue {
      if k in waiting then this.(waiting := waiting - {k}).Add(k) else this
    }

    function AddRateLimited(k: Key, backoff: int, now: Time): Queue {
      this.(failures := failures[k := Failures(k) + 1]).AddAfter(k, backoff, now)
    }

    function Forget(k: Key): Queue {
      this.(failures := failures - {k})
    }

    function Get(): (Queue, Got) {
      if order != [] then
        var k := order[0];
        (this.(order := order[1..], dirty := dirty - {k}, processing := processing + {k}), Item(k))
      else
        (this, if down then Closed else Blocked)
    }

    function Done(k: Key): Queue {
      this.(processing := processing - {k}, order := if k in dirty then order + [k] else order)
    }

    function ShutDown(): Queue {
      this.(down := true)
    }

    /** Re-adds the key within the budget; otherwise forgets it and reports the rejection. */
    function Requeue(k: Key, retries: int, backoff: int, now: Time): (Queue, bool) {
      if WithinBudget(retries, Failures(k)) then (AddRateLimited(k, backoff, now), false)
      else (Forget(k), true)
    }
  }

  const EMPTY := Queue([], {}, {}, map[], map[], false)

  predicate WithinBudget(retries: int, failures: nat) {
    retries < 0 || failures < retries
  }

  // The operations keep the invariant; `Done` does for keys that are being processed.

  lemma AddKeepsInv(q: Queue, k: Key)
    requires q.Inv()
    ensures q.Add(k).Inv()
  {
  }

  lemma GetKeepsInv(q: Queue)
    requires q.Inv()
    ensures q.Get().0.Inv()
  {
    if q.order != [] {
      assert q.order == [q.order[0]] + q.order[1..];
    }
  }

  /** `Done` keeps the invariant exactly for keys that are not queued already. */
  lemma DoneKeepsInvIff(q: Queue, k: Key)
    requires q.Inv()
    ensures q.Done(k).Inv() <==> k in q.processing || k !in q.dirty
  {
    var r := q.Done(k);
    if k in q.dirty && k !in q.processing {
      var i :| 0 <= i < |q.order| && q.order[i] == k;
      assert r.order[i] == r.order[|q.order|];
    } else {
      forall x ensures x in r.order <==> x in r.dirty && x !in r.processing {
        assert x in r.order <==> x in q.order || (x == k && k in q.dirty);
      }
    }
  }

  /** The rate-limiting work queue of client-go. */
  class RateLimitingQueue {
    var order: seq<Key>
    var dirty: set<Key>
    var processing: set<Key>
    var waiting: map<Key, Time>
    var failures: map<Key, nat>
    var down: bool

    ghost function State(): Queue
      reads this
    {
      Queue(order, dirty, processing, waiting, failures, down)
    }

    ghost predicate Valid()
      reads this
    {
      State().Inv()
    }

    constructor ()
      ensures Valid() && State() == EMPTY
    {
      order, dirty, processing, waiting, failures, down := [], {}, {}, map[], map[], false;
    }

    method Add(k: Key)
      requires Valid()
      modifies this
      ensures Valid() && State() == old(State()).Add(k)
    {
      AddKeepsInv(State(), k);
      if down || k in dirty {
        return;
      }
      dirty := dirty + {k};
      if k !in processing {
        order := order + [k];
      }
    }

    method AddAfter(k: Key, delay: int, now: Time)
      requires Valid()
      modifies this
      ensures Valid() && State() == old(State()).AddAfter(k, delay, now)
    {
      if down {
        return;
      }
      if delay <= 0 {
        Add(k);
      } else if k !in waiting || now + delay < waiting[k] {
        waiting := waiting[k := now + delay];
      }
    }

    method Release(k: Key)
      requires Valid()
      modifies this
      ensures Valid() && State() == old(State()).Release(k)
    {
      if k in waiting {
        waiting := waiting - {k};
        Add(k);
      }
    }

    method AddRateLimited(k: Key, backoff: int, now: Time)
      requires Valid()
      modifies this
      ensures Valid() && State() == old(State()).AddRateLimited(k, backoff, now)
    {
      var n := NumRequeues(k);
      failures := failures[k := n + 1];
      AddAfter(k, backoff, now);
    }

    method NumRequeues(k: Key) returns (n: nat)
      ensures n == State().Failures(k)
    {
      n := if k in failures then failures[k] else 0;
    }

    method Forget(k: Key)
      requires Valid()
      modifies this
      ensures Valid() && State() == old(State()).Forget(k)
    {
      failures := failures - {k};
    }

    method Get() returns (got: Got)
      requires Valid()
      modifies this
      ensures Valid() && (State(), got) == old(State()).Get()
    {
      GetKeepsInv(State());
      if order == [] {
        return if down then Closed else Blocked;
      }
      got := Item(order[0]);
      processing, dirty, order := processing + {order[0]}, dirty - {order[0]}, order[1..];
    }

    /** Valid afterwards exactly for a key that is being processed or not queued. */
    method Done(k: Key)
      requires Valid()
      modifies this
      ensures State() == old(State()).Done(k)
      ensures Valid() <==> k in old(processing) || k !in old(dirty)
    {
      DoneKeepsInvIff(State(), k);
      processing := processing - {k};
      if k in dirty {
        order := order + [k];
      }
    }

    method ShutDown()
      requires Valid()
      modifies this
      ensures Valid() && State() == old(State()).ShutDown()
    {
      down := true;
    }

    method Len() returns (n: nat)
      ensures n == |State().order|
    {
      n := |order|;
    }
  }

  /** The queue that stops requeuing a key after `retries` failures in a row. */
  class RetryQueue {
    const queue: RateLimitingQueue
    const retries: int

    constructor (queue: RateLimitingQueue, retries: int)
      ensures this.queue == queue && this.retries == retries
    {
      this.queue, this.retries := queue, retries;
    }

    ghost function State(): Queue
      reads queue
    {
      queue.State()
    }

    ghost predicate Valid()
      reads queue
    {
      queue.Valid()
    }

    method Add(k: Key)
      requires Valid()
      modifies queue
      ensures Valid() && State() == old(State()).Add(k)
    {
      queue.Add(k);
    }

    method AddAfter(k: Key, delay: int, now: Time)
      requires Valid()
      modifies queue
      ensures Valid() && State() == old(State()).AddAfter(k, delay, now)
    {
      queue.AddAfter(k, delay, now);
    }

    method Requeue(k: Key, backoff: int, now: Time) returns (rejected: bool)
      requires Valid()
      modifies queue
      ensures Valid() && (State(), rejected) == old(State()).Requeue(k, retries, backoff, now)
    {
      var n := queue.NumRequeues(k);
      if retries < 0 || n < retries {
        queue.AddRateLimited(k, backoff, now);
        return false;
      }
      queue.Forget(k);
      return true;
    }

    method Forget(k: Key)
      requires Valid()
      modifies queue
      ensures Valid() && State() == old(State()).Forget(k)
    {
      queue.Forget(k);
    }

    method Get() returns (got: Got)
      requires Valid()
      modifies queue
      ensures Valid() && (State(), got) == old(State()).Get()
    {
      got := queue.Get();
    }

    method Done(k: Key)
      requires Valid()
      modifies queue
      ensures State() == old(State()).Done(k)
      ensures Valid() <==> k in old(State()).processing || k !in old(State()).dirty
    {
      queue.Done(k);
    }

    method ShutDown()
      requires Valid()
      modifies queue
      ensures Valid() && State() == old(State()).ShutDown()
    {
      queue.ShutDown();
    }

    method Len() returns (n: nat)
      ensures n == |State().order|
    {
      n := queue.Len();
    }
  }
}
