/** What every sequence of queue operations keeps (core/reconcile/queue.go:80-174). */
module QueueRuns {
  import opened Queues

  datatype Op<!K> = Enqueued(key: K) | Got | Finished(key: K) | Stopped

  /** `done` is only for a key the caller holds; a get that returns a key finds one. */
  predicate Legal<K>(q: Queue<K>, op: Op<K>) {
    match op
    case Got => q.ready != []
    case Finished(key) => key in q.processing
    case _ => true
  }

  function Do<K>(q: Queue<K>, op: Op<K>): Queue<K>
    requires Legal(q, op)
  {
    match op
    case Enqueued(key) => Enqueue(q, key)
    case Got => Get(q)
    case Finished(key) => Done(q, key)
    case Stopped => ShutDown(q)
  }

  predicate LegalRun<K>(q: Queue<K>, ops: seq<Op<K>>)
    decreases ops
  {
    ops == [] || (Legal(q, ops[0]) && LegalRun(Do(q, ops[0]), ops[1..]))
  }

  function Run<K>(q: Queue<K>, ops: seq<Op<K>>): Queue<K>
    requires LegalRun(q, ops)
    decreases ops
  {
    if ops == [] then q else Run(Do(q, ops[0]), ops[1..])
  }

  function One(b: bool): nat {
    if b then 1 else 0
  }

  /** How many enqueues of `key` were not dropped. */
  function Accepted<K>(q: Queue<K>, ops: seq<Op<K>>, key: K): nat
    requires LegalRun(q, ops)
    decreases ops
  {
    if ops == [] then 0
    else
      One(ops[0] == Enqueued(key) && !q.shuttingDown && key !in q.dirty)
      + Accepted(Do(q, ops[0]), ops[1..], key)
  }

  /** How many gets returned `key`. */
  function Gets<K>(q: Queue<K>, ops: seq<Op<K>>, key: K): nat
    requires LegalRun(q, ops)
    decreases ops
  {
    if ops == [] then 0
    else One(ops[0] == Got && q.ready[0] == key) + Gets(Do(q, ops[0]), ops[1..], key)
  }

  /** How many gets returned any key. */
  function AllGets<K>(ops: seq<Op<K>>): nat {
    if ops == [] then 0 else One(ops[0] == Got) + AllGets(ops[1..])
  }

  lemma DoKeepsOk<K>(q: Queue<K>, op: Op<K>)
    requires Ok(q) && Legal(q, op)
    ensures Ok(Do(q, op))
  {
  }

  lemma {:induction false} RunKeepsOk<K>(q: Queue<K>, ops: seq<Op<K>>)
    requires Ok(q) && LegalRun(q, ops)
    ensures Ok(Run(q, ops))
    decreases ops
  {
    if ops != [] {
      DoKeepsOk(q, ops[0]);
      RunKeepsOk(Do(q, ops[0]), ops[1..]);
    }
  }

  /** Every accepted enqueue is answered by one get, except the one still pending. */
  lemma {:induction false} AcceptedEnqueuesAreGotten<K>(q: Queue<K>, ops: seq<Op<K>>, key: K)
    requires Ok(q) && LegalRun(q, ops)
    ensures One(key in q.dirty) + Accepted(q, ops, key) == Gets(q, ops, key) + One(key in Run(q, ops).dirty)
    decreases ops
  {
    if ops != [] {
      DoKeepsOk(q, ops[0]);
      if ops[0] == Got {
        assert q.ready[0] in q.ready;
      }
      AcceptedEnqueuesAreGotten(Do(q, ops[0]), ops[1..], key);
    }
  }

  /** FIFO: the key at position i is the answer of exactly the (i+1)-th get from now. */
  lemma {:induction false} FirstInFirstOut<K>(q: Queue<K>, ops: seq<Op<K>>, i: nat)
    requires Ok(q) && LegalRun(q, ops) && i < |q.ready|
    requires AllGets(ops) <= i
    ensures i - AllGets(ops) < |Run(q, ops).ready|
    ensures Run(q, ops).ready[i - AllGets(ops)] == q.ready[i]
    ensures Gets(q, ops, q.ready[i]) == 0
    decreases ops
  {
    if ops != [] {
      DoKeepsOk(q, ops[0]);
      var next := if ops[0] == Got then i - 1 else i;
      FirstInFirstOut(Do(q, ops[0]), ops[1..], next);
    }
  }

  /** A held key is handed to nobody else until it is released, and stays held. */
  lemma {:induction false} HeldByOneWorker<K>(q: Queue<K>, ops: seq<Op<K>>, key: K)
    requires Ok(q) && LegalRun(q, ops) && key in q.processing
    requires Finished(key) !in ops
    ensures Gets(q, ops, key) == 0 && key in Run(q, ops).processing
    decreases ops
  {
    if ops != [] {
      DoKeepsOk(q, ops[0]);
      if ops[0] == Got {
        assert q.ready[0] in q.ready;
      }
      HeldByOneWorker(Do(q, ops[0]), ops[1..], key);
    }
  }

  lemma StaysDirtyWhileHeld<K>(q: Queue<K>, ops: seq<Op<K>>, key: K)
    requires Ok(q) && LegalRun(q, ops) && key in q.processing && Finished(key) !in ops
    ensures key in Run(q, ops).dirty <==> key in q.dirty || Accepted(q, ops, key) > 0
  {
    HeldByOneWorker(q, ops, key);
    AcceptedEnqueuesAreGotten(q, ops, key);
  }

  /** Any number of enqueues during a pass cost one further pass: on release the
      key is back in line exactly if one of them was accepted, last and once. */
  lemma RerunExactlyOnce<K>(q: Queue<K>, ops: seq<Op<K>>, key: K)
    requires Ok(q) && LegalRun(q, ops) && key in q.processing && Finished(key) !in ops
    ensures
      var before := Run(q, ops);
      var after := Done(before, key);
      && key !in after.processing
      && (if key in q.dirty || Accepted(q, ops, key) > 0
          then after.ready == before.ready + [key] && key !in before.ready
          else after.ready == before.ready && key !in after.ready)
  {
    RunKeepsOk(q, ops);
    StaysDirtyWhileHeld(q, ops, key);
    HeldByOneWorker(q, ops, key);
  }

  /** After shutDown nothing is accepted, so the remaining gets are bounded by the
      keys dirty at that moment, whatever a late done re-adds. */
  lemma {:induction false} ShutdownDrains<K>(q: Queue<K>, ops: seq<Op<K>>)
    requires Ok(q) && LegalRun(q, ops) && q.shuttingDown
    ensures Run(q, ops).shuttingDown && Run(q, ops).dirty <= q.dirty
    ensures AllGets(ops) + |Run(q, ops).dirty| == |q.dirty|
    decreases ops
  {
    if ops != [] {
      DoKeepsOk(q, ops[0]);
      if ops[0] == Got {
        assert q.ready[0] in q.ready;
      }
      ShutdownDrains(Do(q, ops[0]), ops[1..]);
    }
  }

  // The simple queue the slice and the two sets stand for.

  datatype Life = Pending | Running | RunningDirty

  /** A line of keys, and what each key that is not idle is doing. */
  datatype Line<!K> = Line(order: seq<K>, life: map<K, Life>)

  ghost function Abstract<K>(q: Queue<K>): Line<K> {
    Line(q.ready, map k | k in q.dirty + q.processing ::
      if k !in q.processing then Pending else if k in q.dirty then RunningDirty else Running)
  }

  ghost function LineDo<K>(line: Line<K>, op: Op<K>, closed: bool): Line<K>
    requires op.Got? ==> line.order != []
    requires op.Finished? ==> op.key in line.life
  {
    match op
    case Enqueued(key) =>
      if closed then line
      else if key !in line.life then Line(line.order + [key], line.life[key := Pending])
      else if line.life[key] == Running then line.(life := line.life[key := RunningDirty])
      else line
    case Got => Line(line.order[1..], line.life[line.order[0] := Running])
    case Finished(key) =>
      if line.life[key] == RunningDirty then Line(line.order + [key], line.life[key := Pending])
      else line.(life := line.life - {key})
    case Stopped => line
  }

  /** The queue refines the line, operation by operation. */
  lemma RefinesLine<K>(q: Queue<K>, op: Op<K>)
    requires Ok(q) && Legal(q, op)
    ensures Abstract(Do(q, op)) == LineDo(Abstract(q), op, q.shuttingDown)
  {
    DoKeepsOk(q, op);
    match op
    case Enqueued(key) => EnqueueRefines(q, key);
    case Got => GetRefines(q);
    case Finished(key) => DoneRefines(q, key);
    case Stopped =>
  }

  lemma EnqueueRefines<K>(q: Queue<K>, key: K)
    requires Ok(q)
    ensures Abstract(Enqueue(q, key)) == LineDo(Abstract(q), Enqueued(key), q.shuttingDown)
  {
    assert Abstract(Enqueue(q, key)).life == LineDo(Abstract(q), Enqueued(key), q.shuttingDown).life;
  }

  lemma GetRefines<K>(q: Queue<K>)
    requires Ok(q) && q.ready != []
    ensures Abstract(Get(q)) == LineDo(Abstract(q), Got, q.shuttingDown)
  {
    assert q.ready[0] in q.ready;
    assert Abstract(Get(q)).life == LineDo(Abstract(q), Got, q.shuttingDown).life;
  }

  lemma DoneRefines<K>(q: Queue<K>, key: K)
    requires Ok(q) && key in q.processing
    ensures Abstract(Done(q, key)) == LineDo(Abstract(q), Finished(key), q.shuttingDown)
  {
    assert Abstract(Done(q, key)).life == LineDo(Abstract(q), Finished(key), q.shuttingDown).life;
  }

  /** In the line, the keys in order are exactly the pending ones. */
  lemma LineListsPending<K>(q: Queue<K>, key: K)
    requires Ok(q)
    ensures key in Abstract(q).order <==> key in Abstract(q).life && Abstract(q).life[key] == Pending
  {
  }
}
