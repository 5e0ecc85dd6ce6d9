/** The wait loop of `get` and its condition variable, with Mesa semantics: a
    signalled worker must take the mutex again and re-check, and any other worker
    may get there first (core/reconcile/queue.go:103-183). */
module Wakeups {
  import opened Queues
  import QueueRuns

  datatype Worker<!K> =
    | Away               // about to call get
    | Blocked            // in cond.Wait, not signalled
    | Woken              // signalled, waiting for the mutex
    | Holding(key: K)    // between get and done
    | Gone               // get answered shutdown

  datatype Pool<!K> = Pool(queue: Queue<K>, workers: seq<Worker<K>>)

  /** Atomic steps, each one critical section. `wake` is the worker a Signal picks. */
  datatype Step<!K> =
    | Enter(w: nat)
    | Resume(w: nat)
    | AddKey(key: K, wake: nat)
    | Release(w: nat, wake: nat)
    | Stop

  predicate AnyBlocked<K>(workers: seq<Worker<K>>) {
    exists w :: 0 <= w < |workers| && workers[w].Blocked?
  }

  /** cond.Signal wakes one waiter if there is one. */
  predicate MayWake<K>(workers: seq<Worker<K>>, wake: nat) {
    AnyBlocked(workers) ==> wake < |workers| && workers[wake].Blocked?
  }

  function Signal<K>(workers: seq<Worker<K>>, wake: nat): seq<Worker<K>> {
    if wake < |workers| && workers[wake].Blocked? then workers[wake := Woken] else workers
  }

  function Broadcast<K>(workers: seq<Worker<K>>): seq<Worker<K>> {
    seq(|workers|, i requires 0 <= i < |workers| => if workers[i].Blocked? then Woken else workers[i])
  }

  predicate Enabled<K>(p: Pool<K>, step: Step<K>) {
    match step
    case Enter(w) => w < |p.workers| && p.workers[w].Away?
    case Resume(w) => w < |p.workers| && p.workers[w].Woken?
    case AddKey(key, wake) => MayWake(p.workers, wake)
    case Release(w, wake) => w < |p.workers| && p.workers[w].Holding? && MayWake(p.workers, wake)
    case Stop => true
  }

  /** One turn of get's loop by a worker that has the mutex. */
  function Turn<K>(p: Pool<K>, w: nat): Pool<K>
    requires w < |p.workers|
  {
    if p.queue.ready == [] then
      p.(workers := p.workers[w := if p.queue.shuttingDown then Gone else Blocked])
    else
      Pool(Get(p.queue), p.workers[w := Holding(p.queue.ready[0])])
  }

  function Do<K>(p: Pool<K>, step: Step<K>): Pool<K>
    requires Enabled(p, step)
  {
    match step
    case Enter(w) => Turn(p, w)
    case Resume(w) => Turn(p, w)
    case AddKey(key, wake) =>
      var queue := Enqueue(p.queue, key);
      Pool(queue, if |queue.ready| > |p.queue.ready| then Signal(p.workers, wake) else p.workers)
    case Release(w, wake) =>
      var queue := Done(p.queue, p.workers[w].key);
      var workers := p.workers[w := Away];
      Pool(queue, if |queue.ready| > |p.queue.ready| then Signal(workers, wake) else workers)
    case Stop => Pool(ShutDown(p.queue), Broadcast(p.workers))
  }

  function WokenCount<K>(workers: seq<Worker<K>>): nat {
    if workers == [] then 0 else QueueRuns.One(workers[0].Woken?) + WokenCount(workers[1..])
  }

  lemma {:induction false} CountUpdate<K>(workers: seq<Worker<K>>, w: nat, worker: Worker<K>)
    requires w < |workers|
    ensures WokenCount(workers[w := worker]) + QueueRuns.One(workers[w].Woken?)
         == WokenCount(workers) + QueueRuns.One(worker.Woken?)
  {
    if w > 0 {
      assert workers[w := worker][1..] == workers[1..][w - 1 := worker];
      CountUpdate(workers[1..], w - 1, worker);
    }
  }

  /** No work is stranded: while anybody sleeps, every ready key has a signalled
      worker on its way to it. */
  ghost predicate NoLostWakeup<K>(p: Pool<K>) {
    AnyBlocked(p.workers) ==> !p.queue.shuttingDown && |p.queue.ready| <= WokenCount(p.workers)
  }

  ghost predicate HoldersMatch<K>(p: Pool<K>) {
    && (forall w | 0 <= w < |p.workers| && p.workers[w].Holding? :: p.workers[w].key in p.queue.processing)
    && (forall k | k in p.queue.processing :: Worker.Holding(k) in p.workers)
    && (forall v, w | 0 <= v < w < |p.workers| && p.workers[v].Holding? && p.workers[w].Holding? ::
          p.workers[v].key != p.workers[w].key)
  }

  ghost predicate AllGone<K>(p: Pool<K>) {
    forall w | 0 <= w < |p.workers| :: p.workers[w].Gone?
  }

  ghost predicate LateDoneCovered<K>(p: Pool<K>) {
    && (Worker.Gone in p.workers ==> p.queue.shuttingDown)
    && (AllGone(p) ==> p.queue.ready == [])
  }

  ghost predicate Inv<K>(p: Pool<K>) {
    && |p.workers| > 0
    && Ok(p.queue)
    && HoldersMatch(p)
    && NoLostWakeup(p)
    && LateDoneCovered(p)
  }

  function Start<K>(n: nat): Pool<K> {
    Pool(Queue([], {}, {}, false), seq(n, i => Away))
  }

  lemma StartInv<K>(n: nat)
    requires n > 0
    ensures Inv<K>(Start(n))
  {
  }

  lemma TurnKeepsHolders<K>(p: Pool<K>, w: nat)
    requires Ok(p.queue) && HoldersMatch(p)
    requires w < |p.workers| && (p.workers[w].Away? || p.workers[w].Woken?)
    ensures HoldersMatch(Turn(p, w)) && Ok(Turn(p, w).queue)
  {
    var p' := Turn(p, w);
    if p.queue.ready != [] {
      assert p.queue.ready[0] in p.queue.ready;
      QueueRuns.DoKeepsOk(p.queue, QueueRuns.Got);
      forall k | k in p'.queue.processing ensures Worker.Holding(k) in p'.workers {
        assert p'.workers[w] == Holding(p.queue.ready[0]);
        if k != p.queue.ready[0] {
          var v :| 0 <= v < |p.workers| && p.workers[v] == Holding(k);
          assert p'.workers[v] == Holding(k);
        }
      }
    } else {
      forall k | k in p'.queue.processing ensures Worker.Holding(k) in p'.workers {
        var v :| 0 <= v < |p.workers| && p.workers[v] == Holding(k);
        assert p'.workers[v] == Holding(k);
      }
    }
  }

  lemma TurnKeepsWakeups<K>(p: Pool<K>, w: nat)
    requires NoLostWakeup(p) && w < |p.workers| && (p.workers[w].Away? || p.workers[w].Woken?)
    ensures NoLostWakeup(Turn(p, w))
  {
    var p' := Turn(p, w);
    CountUpdate(p.workers, w, p'.workers[w]);
    if AnyBlocked(p'.workers) && p.queue.ready != [] {
      var v :| 0 <= v < |p'.workers| && p'.workers[v].Blocked?;
      assert p.workers[v].Blocked?;
    }
  }

  lemma SignalKeepsWakeups<K>(workers: seq<Worker<K>>, wake: nat)
    requires MayWake(workers, wake)
    ensures AnyBlocked(Signal(workers, wake)) ==>
              AnyBlocked(workers) && WokenCount(Signal(workers, wake)) == WokenCount(workers) + 1
  {
    if AnyBlocked(Signal(workers, wake)) {
      var v :| 0 <= v < |workers| && Signal(workers, wake)[v].Blocked?;
      assert workers[v].Blocked?;
      CountUpdate(workers, wake, Woken);
    }
  }

  lemma SignalKeepsHolders<K>(p: Pool<K>, wake: nat)
    requires HoldersMatch(p)
    ensures HoldersMatch(p.(workers := Signal(p.workers, wake)))
  {
    var workers := Signal(p.workers, wake);
    forall k | k in p.queue.processing ensures Worker.Holding(k) in workers {
      var v :| 0 <= v < |p.workers| && p.workers[v] == Holding(k);
      assert workers[v] == Holding(k);
    }
  }

  lemma AddKeyKeepsInv<K>(p: Pool<K>, key: K, wake: nat)
    requires Inv(p) && MayWake(p.workers, wake)
    ensures Inv(Do(p, AddKey(key, wake)))
  {
    QueueRuns.DoKeepsOk(p.queue, QueueRuns.Enqueued(key));
    SignalKeepsWakeups(p.workers, wake);
    SignalKeepsHolders(p.(queue := Enqueue(p.queue, key)), wake);
    var p' := Do(p, AddKey(key, wake));
    if AllGone(p') {
      assert p'.workers[0].Gone?;
      assert p.workers[0] == Gone;
    }
  }

  lemma ReleaseKeepsHolders<K>(p: Pool<K>, w: nat)
    requires HoldersMatch(p) && w < |p.workers| && p.workers[w].Holding?
    ensures HoldersMatch(Pool(Done(p.queue, p.workers[w].key), p.workers[w := Away]))
  {
    var mid := Pool(Done(p.queue, p.workers[w].key), p.workers[w := Away]);
    forall k | k in mid.queue.processing ensures Worker.Holding(k) in mid.workers {
      var v :| 0 <= v < |p.workers| && p.workers[v] == Holding(k);
      assert mid.workers[v] == Holding(k);
    }
  }

  lemma ReleaseKeepsWakeups<K>(p: Pool<K>, w: nat, wake: nat)
    requires NoLostWakeup(p) && Enabled(p, Release(w, wake))
    ensures NoLostWakeup(Do(p, Release(w, wake)))
  {
    var workers := p.workers[w := Away];
    CountUpdate(p.workers, w, Away);
    if AnyBlocked(workers) {
      var v :| 0 <= v < |workers| && workers[v].Blocked?;
      assert p.workers[v].Blocked?;
      assert workers[wake].Blocked?;
    }
    SignalKeepsWakeups(workers, wake);
  }

  lemma ReleaseKeepsInv<K>(p: Pool<K>, w: nat, wake: nat)
    requires Inv(p) && Enabled(p, Release(w, wake))
    ensures Inv(Do(p, Release(w, wake)))
  {
    var key := p.workers[w].key;
    QueueRuns.DoKeepsOk(p.queue, QueueRuns.Finished(key));
    ReleaseKeepsHolders(p, w);
    SignalKeepsHolders(Pool(Done(p.queue, key), p.workers[w := Away]), wake);
    ReleaseKeepsWakeups(p, w, wake);
    var p' := Do(p, Release(w, wake));
    assert p'.workers[w].Away?;
    if Worker.Gone in p'.workers {
      var v :| 0 <= v < |p'.workers| && p'.workers[v].Gone?;
      assert p.workers[v] == Gone;
    }
  }

  lemma TurnKeepsInv<K>(p: Pool<K>, w: nat)
    requires Inv(p) && w < |p.workers| && (p.workers[w].Away? || p.workers[w].Woken?)
    ensures Inv(Turn(p, w))
  {
    TurnKeepsHolders(p, w);
    TurnKeepsWakeups(p, w);
    var p' := Turn(p, w);
    if AllGone(p') {
      assert p'.workers[w].Gone?;
    }
  }

  lemma StopKeepsInv<K>(p: Pool<K>)
    requires Inv(p)
    ensures Inv(Do(p, Stop))
  {
    var p' := Do(p, Stop);
    forall k | k in p.queue.processing ensures Worker.Holding(k) in p'.workers {
      var v :| 0 <= v < |p.workers| && p.workers[v] == Holding(k);
      assert p'.workers[v] == Holding(k);
    }
    if AllGone(p') {
      forall w | 0 <= w < |p.workers| ensures p.workers[w].Gone? {
        assert p'.workers[w].Gone?;
      }
    }
  }

  lemma StepKeepsInv<K>(p: Pool<K>, step: Step<K>)
    requires Inv(p) && Enabled(p, step)
    ensures Inv(Do(p, step))
  {
    match step
    case Enter(w) => TurnKeepsInv(p, w);
    case Resume(w) => TurnKeepsInv(p, w);
    case AddKey(key, wake) => AddKeyKeepsInv(p, key, wake);
    case Release(w, wake) => ReleaseKeepsInv(p, w, wake);
    case Stop => StopKeepsInv(p);
  }

  // Whole runs.

  predicate LegalRun<K>(p: Pool<K>, steps: seq<Step<K>>)
    decreases steps
  {
    steps == [] || (Enabled(p, steps[0]) && LegalRun(Do(p, steps[0]), steps[1..]))
  }

  function Run<K>(p: Pool<K>, steps: seq<Step<K>>): Pool<K>
    requires LegalRun(p, steps)
    decreases steps
  {
    if steps == [] then p else Run(Do(p, steps[0]), steps[1..])
  }

  lemma {:induction false} RunKeepsInv<K>(p: Pool<K>, steps: seq<Step<K>>)
    requires Inv(p) && LegalRun(p, steps)
    ensures Inv(Run(p, steps))
    decreases steps
  {
    if steps != [] {
      StepKeepsInv(p, steps[0]);
      RunKeepsInv(Do(p, steps[0]), steps[1..]);
    }
  }

  /** However signals and barging interleave, the pool never sleeps on work: if
      nobody is awake and nobody holds a key, there is nothing ready. */
  lemma NeverAllAsleepWithWork<K>(n: nat, steps: seq<Step<K>>)
    requires n > 0 && LegalRun(Start<K>(n), steps)
    ensures
      var p := Run(Start(n), steps);
      && NoLostWakeup(p)
      && ((forall w | 0 <= w < n && w < |p.workers| :: p.workers[w].Blocked?) ==> p.queue.ready == [])
  {
    StartInv<K>(n);
    RunKeepsInv(Start<K>(n), steps);
    var p := Run(Start(n), steps);
    RunKeepsPoolSize(Start<K>(n), steps);
    if forall w | 0 <= w < n && w < |p.workers| :: p.workers[w].Blocked? {
      assert p.workers[0].Blocked?;
      NoneWoken(p.workers);
    }
  }

  lemma {:induction false} RunKeepsPoolSize<K>(p: Pool<K>, steps: seq<Step<K>>)
    requires LegalRun(p, steps)
    ensures |Run(p, steps).workers| == |p.workers|
    decreases steps
  {
    if steps != [] {
      RunKeepsPoolSize(Do(p, steps[0]), steps[1..]);
    }
  }

  lemma {:induction false} NoneWoken<K>(workers: seq<Worker<K>>)
    requires forall w | 0 <= w < |workers| :: !workers[w].Woken?
    ensures WokenCount(workers) == 0
  {
    if workers != [] {
      NoneWoken(workers[1..]);
    }
  }

  /** When every worker has exited, nothing is left anywhere in the queue, keys
      re-added by a late done included. */
  lemma ExitedPoolLeftNothing<K>(n: nat, steps: seq<Step<K>>)
    requires n > 0 && LegalRun(Start<K>(n), steps) && AllGone(Run(Start<K>(n), steps))
    ensures
      var q := Run(Start<K>(n), steps).queue;
      q.shuttingDown && q.ready == [] && q.dirty == {} && q.processing == {}
  {
    StartInv<K>(n);
    RunKeepsInv(Start<K>(n), steps);
    var p := Run(Start<K>(n), steps);
    RunKeepsPoolSize(Start<K>(n), steps);
    assert p.workers[0].Gone?;
  }

  /** The queue operation a step performs, if any. */
  function OpOf<K>(p: Pool<K>, step: Step<K>): seq<QueueRuns.Op<K>>
    requires Enabled(p, step)
  {
    match step
    case Enter(w) => if p.queue.ready == [] then [] else [QueueRuns.Got]
    case Resume(w) => if p.queue.ready == [] then [] else [QueueRuns.Got]
    case AddKey(key, wake) => [QueueRuns.Enqueued(key)]
    case Release(w, wake) => [QueueRuns.Finished(p.workers[w].key)]
    case Stop => [QueueRuns.Stopped]
  }

  function Ops<K>(p: Pool<K>, steps: seq<Step<K>>): seq<QueueRuns.Op<K>>
    requires LegalRun(p, steps)
    decreases steps
  {
    if steps == [] then [] else OpOf(p, steps[0]) + Ops(Do(p, steps[0]), steps[1..])
  }

  /** Every run of the pool is a legal run of the queue, so all of QueueRuns applies. */
  lemma {:induction false} PoolRunsQueue<K>(p: Pool<K>, steps: seq<Step<K>>)
    requires Inv(p) && LegalRun(p, steps)
    ensures QueueRuns.LegalRun(p.queue, Ops(p, steps))
    ensures QueueRuns.Run(p.queue, Ops(p, steps)) == Run(p, steps).queue
    decreases steps
  {
    if steps != [] {
      StepKeepsInv(p, steps[0]);
      PoolRunsQueue(Do(p, steps[0]), steps[1..]);
      var rest := Ops(Do(p, steps[0]), steps[1..]);
      var ops := Ops(p, steps);
      if OpOf(p, steps[0]) == [] {
        assert ops == rest;
      } else {
        assert ops[0] == OpOf(p, steps[0])[0] && ops[1..] == rest;
      }
    }
  }

  // Shutdown terminates.

  function Weight<K>(worker: Worker<K>): nat {
    match worker
    case Gone => 0
    case Holding(_) => 2
    case _ => 1
  }

  function TotalWeight<K>(workers: seq<Worker<K>>): nat {
    if workers == [] then 0 else Weight(workers[0]) + TotalWeight(workers[1..])
  }

  lemma {:induction false} WeightUpdate<K>(workers: seq<Worker<K>>, w: nat, worker: Worker<K>)
    requires w < |workers|
    ensures TotalWeight(workers[w := worker]) + Weight(workers[w]) == TotalWeight(workers) + Weight(worker)
  {
    if w > 0 {
      assert workers[w := worker][1..] == workers[1..][w - 1 := worker];
      WeightUpdate(workers[1..], w - 1, worker);
    }
  }

  /** Bounds the worker steps still to come after shutDown. */
  function Work<K>(p: Pool<K>): nat {
    2 * |p.queue.dirty| + TotalWeight(p.workers)
  }

  predicate WorkerStep<K>(step: Step<K>) {
    step.Enter? || step.Resume? || step.Release?
  }

  lemma ShutdownTurnWorks<K>(p: Pool<K>, w: nat)
    requires Ok(p.queue) && p.queue.shuttingDown
    requires w < |p.workers| && (p.workers[w].Away? || p.workers[w].Woken?)
    ensures Work(Turn(p, w)) < Work(p)
  {
    WeightUpdate(p.workers, w, Turn(p, w).workers[w]);
    if p.queue.ready != [] {
      assert p.queue.ready[0] in p.queue.ready;
    }
  }

  lemma NoneBlocked<K>(workers: seq<Worker<K>>, wake: nat)
    requires !AnyBlocked(workers)
    ensures Signal(workers, wake) == workers && Broadcast(workers) == workers
  {
  }

  lemma ShutdownReleaseWorks<K>(p: Pool<K>, w: nat, wake: nat)
    requires !AnyBlocked(p.workers) && Enabled(p, Release(w, wake))
    ensures Work(Do(p, Release(w, wake))) < Work(p)
  {
    WeightUpdate(p.workers, w, Away);
    NoneBlocked(p.workers[w := Away], wake);
  }

  lemma ShutdownStepWorks<K>(p: Pool<K>, step: Step<K>)
    requires Inv(p) && p.queue.shuttingDown && Enabled(p, step)
    ensures Do(p, step).queue.shuttingDown
    ensures if WorkerStep(step) then Work(Do(p, step)) < Work(p) else Do(p, step) == p
  {
    match step
    case Enter(w) => ShutdownTurnWorks(p, w);
    case Resume(w) => ShutdownTurnWorks(p, w);
    case Release(w, wake) => ShutdownReleaseWorks(p, w, wake);
    case AddKey(key, wake) =>
    case Stop => NoneBlocked(p.workers, 0);
  }

  function WorkerSteps<K>(steps: seq<Step<K>>): nat {
    if steps == [] then 0 else QueueRuns.One(WorkerStep(steps[0])) + WorkerSteps(steps[1..])
  }

  /** After shutDown the workers take boundedly many more steps ... */
  lemma {:induction false} ShutdownTerminates<K>(p: Pool<K>, steps: seq<Step<K>>)
    requires Inv(p) && p.queue.shuttingDown && LegalRun(p, steps)
    ensures Run(p, steps).queue.shuttingDown
    ensures WorkerSteps(steps) + Work(Run(p, steps)) <= Work(p)
    decreases steps
  {
    if steps != [] {
      ShutdownStepWorks(p, steps[0]);
      StepKeepsInv(p, steps[0]);
      ShutdownTerminates(Do(p, steps[0]), steps[1..]);
    }
  }

  /** ... and until all have exited some worker can take one, so all do exit. */
  lemma ShutdownNeverStuck<K>(p: Pool<K>) returns (step: Step<K>)
    requires Inv(p) && p.queue.shuttingDown && !AllGone(p)
    ensures Enabled(p, step) && WorkerStep(step)
  {
    var w :| 0 <= w < |p.workers| && !p.workers[w].Gone?;
    match p.workers[w]
    case Away => step := Enter(w);
    case Woken => step := Resume(w);
    case Holding(_) =>
      step := Release(w, 0);
    case Blocked =>
      assert false;
      step := Stop;
  }
}
