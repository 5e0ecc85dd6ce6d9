/** The keyed, deduplicating work queue of core/reconcile/queue.go: its state and
    mutex-protected operations as functions, and the class that performs them. */
module Queues {
  import opened Backoff

  datatype Queue<!K> = Queue(ready: seq<K>, dirty: set<K>, processing: set<K>, shuttingDown: bool)

  function Enqueue<K>(q: Queue<K>, key: K): Queue<K> {
    if q.shuttingDown || key in q.dirty then q
    else if key in q.processing then q.(dirty := q.dirty + {key})
    else q.(dirty := q.dirty + {key}, ready := q.ready + [key])
  }

  /** What a worker does once it no longer waits and finds a ready key. */
  function Get<K>(q: Queue<K>): Queue<K>
    requires q.ready != []
  {
    var key := q.ready[0];
    q.(ready := q.ready[1..], processing := q.processing + {key}, dirty := q.dirty - {key})
  }

  function Done<K>(q: Queue<K>, key: K): Queue<K> {
    if key in q.dirty then q.(processing := q.processing - {key}, ready := q.ready + [key])
    else q.(processing := q.processing - {key})
  }

  function ShutDown<K>(q: Queue<K>): Queue<K> {
    q.(shuttingDown := true)
  }

  ghost predicate Distinct<K>(s: seq<K>) {
    forall i, j :: 0 <= i < j < |s| ==> s[i] != s[j]
  }

  /** The queue's invariant: `ready` lists, once each, the dirty keys nobody holds. */
  ghost predicate Ok<K>(q: Queue<K>) {
    && Distinct(q.ready)
    && (forall k | k in q.ready :: k in q.dirty && k !in q.processing)
    && (forall k | k in q.dirty :: k in q.processing || k in q.ready)
  }

  /** The class. `timers` are the delayed re-adds armed with time.AfterFunc; the
      runtime calls Fire. The condition variable is in module Wakeups. */
  class WorkQueue<K(==,0)> {
    var ready: seq<K>
    var dirty: set<K>
    var processing: set<K>
    var shuttingDown: bool
    var timers: multiset<K>
    const limiter: RateLimiter<K>

    ghost function State(): Queue<K>
      reads this
    {
      Queue(ready, dirty, processing, shuttingDown)
    }

    constructor (limiter: RateLimiter<K>)
      ensures State() == Queue([], {}, {}, false) && timers == multiset{} && this.limiter == limiter
    {
      ready, dirty, processing, shuttingDown, timers := [], {}, {}, false, multiset{};
      this.limiter := limiter;
    }

    method Add(key: K)
      modifies this
      ensures State() == Enqueue(old(State()), key) && timers == old(timers)
    {
      if shuttingDown {
        return;
      }
      if key in dirty {
        return;
      }
      dirty := dirty + {key};
      if key in processing {
        return;
      }
      ready := ready + [key];
    }

    method AddAfter(key: K, delay: int)
      modifies this
      ensures delay <= 0 ==> State() == Enqueue(old(State()), key) && timers == old(timers)
      ensures delay > 0 ==> State() == old(State()) && timers == old(timers) + multiset{key}
    {
      if delay <= 0 {
        Add(key);
        return;
      }
      timers := timers + multiset{key};
    }

    /** A failing key always waits: its delay is at least the base. */
    method AddRateLimited(key: K)
      requires 0 < limiter.base <= limiter.max && limiter.base < 0x800_0000_0000
      modifies this, limiter`fails
      ensures State() == old(State()) && timers == old(timers) + multiset{key}
      ensures limiter.fails == Failed(old(limiter.fails), key)
    {
      var delay := limiter.When(key);
      DelayStaysInBounds(limiter.base, limiter.max, Failures(old(limiter.fails), key));
      AddAfter(key, delay);
    }

    method Fire(key: K)
      requires key in timers
      modifies this
      ensures State() == Enqueue(old(State()), key) && timers == old(timers) - multiset{key}
    {
      timers := timers - multiset{key};
      Add(key);
    }

    method Forget(key: K)
      modifies limiter`fails
      ensures limiter.fails == Forgotten(old(limiter.fails), key)
    {
      limiter.Forget(key);
    }

    /** The part of get after its wait loop, whose exit condition it requires. */
    method Take() returns (key: K, shutdown: bool)
      requires ready != [] || shuttingDown
      modifies this
      ensures shutdown <==> old(ready) == []
      ensures shutdown ==> State() == old(State())
      ensures !shutdown ==> key == old(ready)[0] && State() == Get(old(State()))
      ensures timers == old(timers)
    {
      if |ready| == 0 {
        key, shutdown := *, true;
        return;
      }
      key := ready[0];
      ready := ready[1..];
      processing := processing + {key};
      dirty := dirty - {key};
      shutdown := false;
    }

    method Release(key: K)
      modifies this
      ensures State() == Done(old(State()), key) && timers == old(timers)
    {
      processing := processing - {key};
      if key in dirty {
        ready := ready + [key];
      }
    }

    method Stop()
      modifies this
      ensures State() == ShutDown(old(State())) && timers == old(timers)
    {
      shuttingDown := true;
    }
  }
}
