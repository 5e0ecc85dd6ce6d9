/** Global properties of every run of the control plane. */
module SystemTheorems {
  import opened Model
  import opened Queues
  import opened Backoff
  import opened Engine
  import opened System
  import opened SystemInvariant
  import opened SystemFootprint

  // Safety of the substrate.

  /** No orphans: every owned object has an entry in the store. */
  lemma NoOrphans(s: Sys)
    requires Reachable(s)
    ensures forall id | id in s.sub.objs :: s.sub.objs[id].key in s.items
  {
    ReachableInv(s);
  }

  /** At most one owned object per resource, so the first one listed is the only one. */
  lemma AtMostOneObject(s: Sys, key: Key)
    requires Reachable(s)
    ensures |Owned(s.sub, key)| <= 1
  {
    ReachableInv(s);
    var owned := Owned(s.sub, key);
    if owned != {} {
      var id :| id in owned;
      assert owned == {id};
    }
  }

  /** No two workers are ever in a pass over the same key. */
  lemma NeverTwoPassesOnOneKey(s: Sys, v: nat, w: nat)
    requires Reachable(s) && v < w < |s.workers| && Holds(s.workers[v]) && Holds(s.workers[w])
    ensures s.workers[v].key != s.workers[w].key
  {
    ReachableInv(s);
  }

  // Deletion.

  /** Only the last step of a teardown removes an entry: it is marked, a pass has read
      the mark, and no object is left. */
  lemma RemovalIsDeliberate(s: Sys, step: Step, key: Key)
    requires Reachable(s) && Enabled(s, step) && key in s.items && key !in Do(s, step).items
    ensures s.items[key].marked && key in s.h.condemned && Owned(s.sub, key) == {}
    ensures step.Acts? && s.workers[step.w] == Erasing(key)
  {
    ReachableInv(s);
    if step.Acts? {
      ActRemoves(s, step.w, step.act, Effect(s, step.w, step.act), key);
    }
  }

  lemma ActRemoves(s: Sys, w: nat, act: Act, s': Sys, key: Key)
    requires Inv(s) && CanAct(s, w, act) && s' == Effect(s, w, act) && key in s.items && key !in s'.items
    ensures s.workers[w] == Erasing(key) && WorkerOk(s, s.workers[w])
  {
    if !s.workers[w].Releasing? {
      ActFootprint(s, w, act);
    }
  }

  lemma ActCreates(s: Sys, w: nat, act: Act, s': Sys, id: ObjId)
    requires Inv(s) && CanAct(s, w, act) && s' == Effect(s, w, act) && id in s'.sub.objs && id !in s.sub.objs
    ensures s.workers[w].Making? && s.workers[w].key == s'.sub.objs[id].key && WorkerOk(s, s.workers[w])
  {
    if !s.workers[w].Releasing? {
      ActFootprint(s, w, act);
    }
  }

  /** Objects appear only for an unmarked snapshot whose entry is still there. */
  lemma CreationIsWanted(s: Sys, step: Step, id: ObjId)
    requires Reachable(s) && Enabled(s, step) && id in Do(s, step).sub.objs && id !in s.sub.objs
    ensures
      var key := Do(s, step).sub.objs[id].key;
      key in s.items && key !in s.h.condemned && Owned(s.sub, key) == {}
  {
    ReachableInv(s);
    if step.Acts? {
      ActCreates(s, step.w, step.act, Effect(s, step.w, step.act), id);
    } else {
      HappenSub(s, step);
    }
  }

  lemma CondemnedAct(s: Sys, w: nat, act: Act, s': Sys, key: Key)
    requires Inv(s) && CanAct(s, w, act) && s' == Effect(s, w, act) && key in s.h.condemned && key in s'.items
    ensures key in s'.h.condemned && Owned(s'.sub, key) <= Owned(s.sub, key)
  {
    var x := s.workers[w];
    if !x.Releasing? {
      ActFootprint(s, w, act);
      assert WorkerOk(s, x);
      ErasedIsGone(s, w, act, key);
      forall id | id in Owned(s'.sub, key) ensures id in Owned(s.sub, key) {
      }
    }
  }

  lemma ErasedIsGone(s: Sys, w: nat, act: Act, key: Key)
    requires CanAct(s, w, act) && key in s.h.condemned && key in Effect(s, w, act).items
    ensures s.workers[w] == Erasing(key) ==> key in Effect(s, w, act).h.condemned
  {
  }

  lemma CondemnedStep(s: Sys, step: Step, key: Key)
    requires Inv(s) && Enabled(s, step) && key in s.h.condemned && key in Do(s, step).items
    ensures key in Do(s, step).h.condemned && Owned(Do(s, step).sub, key) <= Owned(s.sub, key)
  {
    if step.Acts? {
      CondemnedAct(s, step.w, step.act, Effect(s, step.w, step.act), key);
    } else {
      HappenSub(s, step);
    }
  }

  lemma ActRemovesObject(s: Sys, w: nat, act: Act, s': Sys, id: ObjId)
    requires Inv(s) && CanAct(s, w, act) && s' == Effect(s, w, act) && id in s.sub.objs && id !in s'.sub.objs
    ensures s.workers[w].Removing? && s.sub.objs[id].key == s.workers[w].key && !Refuses(s.sub, id)
  {
    if !s.workers[w].Releasing? {
      ActFootprint(s, w, act);
      assert WorkerOk(s, s.workers[w]);
      FootprintRemovesObject(s, s', w, s.workers[w], s'.workers[w], act, id);
    }
  }

  lemma FootprintRemovesObject(s: Sys, s': Sys, w: nat, x: Worker, x': Worker, act: Act, id: ObjId)
    requires Footprint(s, s', w, x, x', act) && WorkerOk(s, x) && id in s.sub.objs && id !in s'.sub.objs
    ensures x.Removing? && s.sub.objs[id].key == x.key && !Refuses(s.sub, id)
  {
  }

  /** A worker only ever removes an object of its own key, and never a network that a
      container is attached to. */
  lemma RemovalIsOwnAndUnused(s: Sys, w: nat, act: Act, id: ObjId)
    requires Reachable(s) && CanAct(s, w, act) && id in s.sub.objs && id !in Effect(s, w, act).sub.objs
    ensures s.workers[w].Removing? && s.sub.objs[id].key == s.workers[w].key && !Refuses(s.sub, id)
  {
    ReachableInv(s);
    ActRemovesObject(s, w, act, Effect(s, w, act), id);
  }

  // A network outlives the containers attached to it.

  /** Objects come with ids never used before, and change in their state only. */
  ghost predicate ObjectsGoOn(sub: Substrate, sub': Substrate) {
    && sub.issued <= sub'.issued
    && forall id | id in sub'.objs && id in sub.issued :: id in sub.objs && SameButState(sub.objs[id], sub'.objs[id])
  }

  lemma SubMovesGoOn(sub: Substrate, sub': Substrate, x: Worker, act: Act)
    requires SubMoves(sub, sub', x, act) && (x.Making? && act.Makes? ==> act.id !in sub.issued)
    requires forall id | id in sub.objs :: id in sub.issued
    ensures ObjectsGoOn(sub, sub')
  {
  }

  lemma ActObjectsGoOn(s: Sys, w: nat, act: Act, s': Sys)
    requires Inv(s) && CanAct(s, w, act) && s' == Effect(s, w, act)
    ensures ObjectsGoOn(s.sub, s'.sub)
  {
    if !s.workers[w].Releasing? {
      ActFootprint(s, w, act);
      SubMovesGoOn(s.sub, s'.sub, s.workers[w], act);
    }
  }

  lemma HappenObjectsGoOn(s: Sys, step: Step, sub': Substrate)
    requires Possible(s, step) && sub' == Happen(s, step).sub && forall id | id in s.sub.objs :: id in s.sub.issued
    ensures ObjectsGoOn(s.sub, sub')
    ensures forall key :: Owned(sub', key) <= Owned(s.sub, key)
  {
    HappenSub(s, step);
  }

  lemma StepObjectsGoOn(s: Sys, step: Step)
    requires Inv(s) && Enabled(s, step)
    ensures ObjectsGoOn(s.sub, Do(s, step).sub)
  {
    if step.Acts? {
      ActObjectsGoOn(s, step.w, step.act, Effect(s, step.w, step.act));
    } else {
      HappenObjectsGoOn(s, step, Happen(s, step).sub);
    }
  }

  /** An object that is gone never comes back. */
  lemma {:induction false} GoneForGood(s: Sys, steps: seq<Step>, id: ObjId)
    requires Inv(s) && LegalRun(s, steps) && id in s.sub.issued && id !in s.sub.objs
    ensures id !in Run(s, steps).sub.objs
    decreases steps
  {
    if steps != [] {
      StepObjectsGoOn(s, steps[0]);
      StepKeepsInv(s, steps[0]);
      GoneForGood(Do(s, steps[0]), steps[1..], id);
    }
  }

  ghost predicate AttachedIn(sub: Substrate, network: ObjId, container: ObjId) {
    && network in sub.objs && container in sub.objs
    && Attached(sub.objs[container], network, sub.objs[network])
  }

  lemma InUseIsKept(s: Sys, step: Step, network: ObjId, container: ObjId)
    requires Inv(s) && Enabled(s, step) && AttachedIn(s.sub, network, container) && step != DriftRemoves(network)
    ensures network in Do(s, step).sub.objs
  {
    if step.Acts? && network !in Do(s, step).sub.objs {
      ActRemovesObject(s, step.w, step.act, Effect(s, step.w, step.act), network);
    }
  }

  /** In every run in which nobody else removes the network, it and its entry outlive
      each container attached to it. */
  lemma {:induction false} NetworkOutlivesContainers(s: Sys, steps: seq<Step>, network: ObjId, container: ObjId)
    requires Inv(s) && LegalRun(s, steps) && DriftRemoves(network) !in steps
    requires AttachedIn(s.sub, network, container) && container in Run(s, steps).sub.objs
    ensures AttachedIn(Run(s, steps).sub, network, container)
    ensures s.sub.objs[network].key in Run(s, steps).items
    decreases steps
  {
    if steps != [] {
      var s' := Do(s, steps[0]);
      StepObjectsGoOn(s, steps[0]);
      StepKeepsInv(s, steps[0]);
      InUseIsKept(s, steps[0], network, container);
      if container !in s'.sub.objs {
        GoneForGood(s', steps[1..], container);
      }
      NetworkOutlivesContainers(s', steps[1..], network, container);
    }
  }

  /** The entry of `key` is there in every state of the run. */
  ghost predicate Survives(s: Sys, steps: seq<Step>, key: Key)
    requires LegalRun(s, steps)
    decreases steps
  {
    key in s.items && (steps != [] ==> Survives(Do(s, steps[0]), steps[1..], key))
  }

  /** Deletion is final: once a pass has read the mark, no run creates or recreates an
      object of the key while the entry lasts, whatever users write meanwhile. */
  lemma {:induction false} DeletionIsFinal(s: Sys, steps: seq<Step>, key: Key)
    requires Inv(s) && LegalRun(s, steps) && key in s.h.condemned && Survives(s, steps, key)
    ensures key in Run(s, steps).h.condemned && key in Run(s, steps).items && Run(s, steps).items[key].marked
    ensures Owned(Run(s, steps).sub, key) <= Owned(s.sub, key)
    decreases steps
  {
    if steps != [] {
      assert Survives(Do(s, steps[0]), steps[1..], key);
      CondemnedStep(s, steps[0], key);
      StepKeepsInv(s, steps[0]);
      DeletionIsFinal(Do(s, steps[0]), steps[1..], key);
    }
  }

  // No write and no retry is lost.

  /** The worker will read `key` afresh, or is about to arm a timer for it. */
  ghost predicate Due(x: Worker, key: Key) {
    x == Held(key) || x == Failing(key) || (x.Arming? && x.key == key)
  }

  ghost predicate AnyDue(workers: seq<Worker>, key: Key) {
    exists w :: 0 <= w < |workers| && Due(workers[w], key)
  }

  /** Another pass over `key` is on its way. */
  ghost predicate Upcoming(s: Sys, key: Key) {
    key in s.queue.dirty || key in s.timers || AnyDue(s.workers, key)
  }

  /** This step is the read that starts a pass over `key`. */
  ghost predicate Reads(s: Sys, step: Step, key: Key) {
    step.Acts? && step.w < |s.workers| && s.workers[step.w] == Held(key) && step.act.Succeeds?
  }

  lemma DueMoves(workers: seq<Worker>, w: nat, x': Worker, key: Key)
    requires w < |workers| && AnyDue(workers, key) && (Due(workers[w], key) ==> Due(x', key))
    ensures AnyDue(workers[w := x'], key)
  {
    var v :| 0 <= v < |workers| && Due(workers[v], key);
    assert Due(workers[w := x'][v], key);
  }

  lemma ActKeepsUpcoming(s: Sys, w: nat, act: Act, s': Sys, key: Key)
    requires Inv(s) && CanAct(s, w, act) && s' == Effect(s, w, act)
    requires Upcoming(s, key) && !Reads(s, Acts(w, act), key)
    ensures Upcoming(s', key)
  {
    var x := s.workers[w];
    if x.Releasing? {
      if AnyDue(s.workers, key) {
        DueMoves(s.workers, w, Idle, key);
      }
    } else {
      ActFootprint(s, w, act);
      assert x.Held? ==> act.Succeeds? || act.Fails?;
      HeldMoves(s, w, act, s');
      FootprintKeepsUpcoming(s, s', w, x, s'.workers[w], act, key);
    }
  }

  lemma FootprintKeepsUpcoming(s: Sys, s': Sys, w: nat, x: Worker, x': Worker, act: Act, key: Key)
    requires Footprint(s, s', w, x, x', act) && Upcoming(s, key)
    requires x == Held(key) ==> x' == Failing(key)
    ensures Upcoming(s', key)
  {
    if AnyDue(s.workers, key) && !(x.Arming? && x.key == key) {
      DueMoves(s.workers, w, x', key);
    }
  }

  /** A read that fails leads to a retry. */
  lemma HeldMoves(s: Sys, w: nat, act: Act, s': Sys)
    requires CanAct(s, w, act) && s' == Effect(s, w, act) && |s'.workers| == |s.workers|
    ensures s.workers[w].Held? && act.Fails? ==> s'.workers[w] == Failing(s.workers[w].key)
  {
  }

  lemma TakeKeepsUpcoming(s: Sys, w: nat, key: Key)
    requires Possible(s, Takes(w)) && Upcoming(s, key)
    ensures Upcoming(Happen(s, Takes(w)), key)
  {
    var s' := Happen(s, Takes(w));
    if key == s.queue.ready[0] {
      assert Due(s'.workers[w], key);
    } else if AnyDue(s.workers, key) {
      DueMoves(s.workers, w, s'.workers[w], key);
    }
  }

  lemma FireKeepsUpcoming(s: Sys, fired: Key, key: Key)
    requires Possible(s, Fires(fired)) && Upcoming(s, key) && !s.queue.shuttingDown
    ensures Upcoming(Happen(s, Fires(fired)), key)
  {
    var s' := Happen(s, Fires(fired));
    assert s' == s.(timers := s.timers - multiset{fired}, queue := Enqueue(s.queue, fired));
    assert s.queue.dirty <= s'.queue.dirty && fired in s'.queue.dirty;
  }

  lemma EnqueueKeepsUpcoming(s: Sys, key: Key)
    requires Possible(s, EnqueueNext) && Upcoming(s, key)
    ensures Upcoming(Happen(s, EnqueueNext), key)
  {
    var s' := Happen(s, EnqueueNext);
    assert s' == s.(loop := s'.loop, queue := s'.queue);
    assert s.queue.dirty <= s'.queue.dirty;
  }

  /** The other steps leave workers and timers alone, and what is dirty. */
  lemma OtherKeepsUpcoming(s: Sys, step: Step, s': Sys, key: Key)
    requires Possible(s, step) && s' == Happen(s, step) && Upcoming(s, key)
    requires !step.Takes? && !step.Exits? && !step.Fires? && !step.EnqueueNext?
    ensures Upcoming(s', key)
  {
    assert s'.workers == s.workers && s'.timers == s.timers && s'.queue.dirty == s.queue.dirty;
  }

  lemma HappenKeepsUpcoming(s: Sys, step: Step, key: Key)
    requires Possible(s, step) && Upcoming(s, key) && !s.queue.shuttingDown
    ensures Upcoming(Happen(s, step), key)
  {
    match step
    case Takes(w) => TakeKeepsUpcoming(s, w, key);
    case Exits(w) =>
    case Fires(fired) => FireKeepsUpcoming(s, fired, key);
    case EnqueueNext => EnqueueKeepsUpcoming(s, key);
    case Acts(_, _) =>
    case _ => OtherKeepsUpcoming(s, step, Happen(s, step), key);
  }

  /** Something will still lead to a read of `key`: the server owes its nudge, the
      nudge slot is full, the sweep has yet to list or to enqueue it, or another pass
      is on its way. */
  ghost predicate Pending(s: Sys, key: Key) {
    || key in s.owed
    || s.nudge
    || s.loop.Sweeping?
    || (s.loop.Enqueuing? && key in s.loop.todo)
    || Upcoming(s, key)
  }

  ghost predicate UnreadWrite(s: Sys, key: Key) {
    key in s.items && Count(s.h.seen, key) < Count(s.h.written, key)
  }

  ghost predicate WritesPending(s: Sys) {
    !s.cancelled && !s.h.sweepFailed ==> forall key | UnreadWrite(s, key) :: Pending(s, key)
  }

  ghost predicate RetriesUpcoming(s: Sys) {
    !s.queue.shuttingDown ==> forall key | key in s.h.retry :: Upcoming(s, key)
  }

  lemma ActKeepsWritesPending(s: Sys, w: nat, act: Act, s': Sys)
    requires Inv(s) && WritesPending(s) && CanAct(s, w, act) && s' == Effect(s, w, act)
    ensures WritesPending(s')
  {
    if !s.workers[w].Releasing? {
      ActFootprint(s, w, act);
    }
    forall key | !s'.cancelled && !s'.h.sweepFailed && UnreadWrite(s', key) ensures Pending(s', key) {
      if !s.workers[w].Releasing? {
        UnreadBefore(s, s', w, s.workers[w], s'.workers[w], act, key);
      }
      assert UnreadWrite(s, key);
      if Upcoming(s, key) {
        ActKeepsUpcoming(s, w, act, s', key);
      }
    }
  }

  lemma UnreadBefore(s: Sys, s': Sys, w: nat, x: Worker, x': Worker, act: Act, key: Key)
    requires Footprint(s, s', w, x, x', act) && UnreadWrite(s', key)
    ensures UnreadWrite(s, key) && !Reads(s, Acts(w, act), key)
  {
  }

  lemma StepKeepsWritesPending(s: Sys, step: Step)
    requires Inv(s) && WritesPending(s) && Enabled(s, step)
    ensures WritesPending(Do(s, step))
  {
    if step.Acts? {
      ActKeepsWritesPending(s, step.w, step.act, Effect(s, step.w, step.act));
    } else {
      var s' := Do(s, step);
      forall key | !s'.cancelled && !s'.h.sweepFailed && UnreadWrite(s', key) ensures Pending(s', key) {
        if step.UserPut? || step.UserMark? {
          WriteIsPending(s, step, s', key);
        } else {
          OtherStepKeepsPending(s, step, s', key);
        }
      }
    }
  }

  lemma WriteIsPending(s: Sys, step: Step, s': Sys, key: Key)
    requires Inv(s) && WritesPending(s) && Possible(s, step) && s' == Happen(s, step) && (step.UserPut? || step.UserMark?)
    requires !s'.cancelled && !s'.h.sweepFailed && UnreadWrite(s', key)
    ensures Pending(s', key)
  {
    if key != step.key {
      assert UnreadWrite(s, key) && Pending(s, key);
    }
  }

  lemma OtherStepKeepsPending(s: Sys, step: Step, s': Sys, key: Key)
    requires Inv(s) && WritesPending(s) && Possible(s, step) && s' == Happen(s, step)
    requires !step.Acts? && !step.UserPut? && !step.UserMark?
    requires !s'.cancelled && !s'.h.sweepFailed && UnreadWrite(s', key)
    ensures Pending(s', key)
  {
    assert UnreadWrite(s, key);
    if !s.h.sweepFailed && Upcoming(s, key) {
      HappenKeepsUpcoming(s, step, key);
    }
  }

  lemma ActKeepsRetries(s: Sys, w: nat, act: Act, s': Sys)
    requires Inv(s) && RetriesUpcoming(s) && CanAct(s, w, act) && s' == Effect(s, w, act)
    ensures RetriesUpcoming(s')
  {
    if !s.workers[w].Releasing? {
      ActFootprint(s, w, act);
    }
    forall key | !s'.queue.shuttingDown && key in s'.h.retry ensures Upcoming(s', key) {
      if key in s.h.retry && !Reads(s, Acts(w, act), key) {
        ActKeepsUpcoming(s, w, act, s', key);
      } else {
        RetryIsDue(s, s', w, s.workers[w], s'.workers[w], act, key);
      }
    }
  }

  /** A retry newly asked for is due at the worker that asks. */
  lemma RetryIsDue(s: Sys, s': Sys, w: nat, x: Worker, x': Worker, act: Act, key: Key)
    requires Footprint(s, s', w, x, x', act) && key in s'.h.retry && !(key in s.h.retry && !Reads(s, Acts(w, act), key))
    ensures Due(x', key)
  {
  }

  lemma StepKeepsRetries(s: Sys, step: Step)
    requires Inv(s) && RetriesUpcoming(s) && Enabled(s, step)
    ensures RetriesUpcoming(Do(s, step))
  {
    if step.Acts? {
      ActKeepsRetries(s, step.w, step.act, Effect(s, step.w, step.act));
    } else {
      var s' := Happen(s, step);
      HappenHistory(s, step);
      forall key | !s'.queue.shuttingDown && key in s'.h.retry ensures Upcoming(s', key) {
        HappenKeepsUpcoming(s, step, key);
      }
    }
  }

  lemma {:induction false} RunKeepsPending(s: Sys, steps: seq<Step>)
    requires Inv(s) && WritesPending(s) && RetriesUpcoming(s) && LegalRun(s, steps)
    ensures WritesPending(Run(s, steps)) && RetriesUpcoming(Run(s, steps))
    decreases steps
  {
    if steps != [] {
      StepKeepsInv(s, steps[0]);
      StepKeepsWritesPending(s, steps[0]);
      StepKeepsRetries(s, steps[0]);
      RunKeepsPending(Do(s, steps[0]), steps[1..]);
    }
  }

  lemma ReachablePending(s: Sys)
    requires Reachable(s)
    ensures WritesPending(s) && RetriesUpcoming(s)
  {
    var s0, steps :| Initial(s0) && LegalRun(s0, steps) && Run(s0, steps) == s;
    InitialInv(s0);
    RunKeepsPending(s0, steps);
  }

  /** No lost retry: after a pass that failed, waited or started a removal, another
      pass is on its way until it begins, even if the timer fires early. */
  lemma NoLostRetry(s: Sys, key: Key)
    requires Reachable(s) && !s.queue.shuttingDown && key in s.h.retry
    ensures Upcoming(s, key)
  {
    ReachablePending(s);
  }

  // Backoff counts failures, and only those.

  function TrailingFailures(log: seq<Outcome>): nat {
    if log == [] || log[|log| - 1] != Failed then 0 else 1 + TrailingFailures(log[..|log| - 1])
  }

  /** The limiter's count for the key of a worker, given where the worker is. */
  ghost predicate CountOk(s: Sys, x: Worker)
    requires Holds(x)
  {
    var trailing := TrailingFailures(Log(s.h, x.key));
    if x.Failing? then trailing == Failures(s.fails, x.key) + 1
    else if x.Forgetting? || (x.Arming? && !x.failed) then trailing == 0
    else trailing == Failures(s.fails, x.key)
  }

  ghost predicate CountsOk(s: Sys) {
    && (forall w | 0 <= w < |s.workers| && Holds(s.workers[w]) :: CountOk(s, s.workers[w]))
    && (forall key | key !in s.queue.processing :: TrailingFailures(Log(s.h, key)) == Failures(s.fails, key))
  }

  lemma TrailingGrows(log: seq<Outcome>, outcome: Outcome)
    ensures TrailingFailures(log + [outcome]) == if outcome == Failed then 1 + TrailingFailures(log) else 0
  {
    assert (log + [outcome])[..|log|] == log;
  }

  /** The log and the count of the worker's key fit together after its step ... */
  lemma ActCounts(s: Sys, s': Sys, w: nat, x: Worker, x': Worker, act: Act)
    requires Footprint(s, s', w, x, x', act) && CountOk(s, x)
    ensures CountOk(s', x')
  {
    var log, log' := Log(s.h, x.key), Log(s'.h, x.key);
    if Concludes(x, x') {
      assert log' == log + [Ending(x')];
      TrailingGrows(log, Ending(x'));
    } else {
      assert log' == log;
    }
  }

  /** ... and those of the other keys stay. */
  lemma OtherCounts(s: Sys, s': Sys, w: nat, x: Worker, x': Worker, act: Act, key: Key)
    requires Footprint(s, s', w, x, x', act) && key != x.key
    ensures Log(s'.h, key) == Log(s.h, key) && Failures(s'.fails, key) == Failures(s.fails, key)
  {
  }

  /** Steps that change neither logs nor counts. */
  lemma CountsFrame(s: Sys, s': Sys)
    requires CountsOk(s) && s'.h.log == s.h.log && s'.fails == s.fails
    requires |s'.workers| == |s.workers|
    requires forall v | 0 <= v < |s.workers| && Holds(s'.workers[v]) ::
               s'.workers[v] == s.workers[v] || (s'.workers[v].Held? && s'.workers[v].key !in s.queue.processing)
    requires forall key | key !in s'.queue.processing ::
               key !in s.queue.processing || exists w :: 0 <= w < |s.workers| && s.workers[w] == Releasing(key)
    ensures CountsOk(s')
  {
  }

  lemma FootprintKeepsCounts(s: Sys, s': Sys, w: nat, x: Worker, x': Worker, act: Act)
    requires HoldersOk(s) && CountsOk(s) && Footprint(s, s', w, x, x', act)
    ensures CountsOk(s')
  {
    assert CountOk(s, x);
    ActCounts(s, s', w, x, x', act);
    forall v | 0 <= v < |s'.workers| && Holds(s'.workers[v]) ensures CountOk(s', s'.workers[v]) {
      if v != w {
        assert s'.workers[v] == s.workers[v] && CountOk(s, s.workers[v]);
        assert s.workers[v].key != x.key;
        OtherCounts(s, s', w, x, x', act, s.workers[v].key);
      }
    }
    assert x.key in s.queue.processing;
    forall key | key !in s'.queue.processing ensures TrailingFailures(Log(s'.h, key)) == Failures(s'.fails, key) {
      OtherCounts(s, s', w, x, x', act, key);
    }
  }

  lemma ActKeepsCounts(s: Sys, w: nat, act: Act, s': Sys)
    requires Inv(s) && CountsOk(s) && CanAct(s, w, act) && s' == Effect(s, w, act)
    ensures CountsOk(s')
  {
    if s.workers[w].Releasing? {
      CountsFrame(s, s');
    } else {
      ActFootprint(s, w, act);
      FootprintKeepsCounts(s, s', w, s.workers[w], s'.workers[w], act);
    }
  }

  lemma TakeKeepsCounts(s: Sys, w: nat)
    requires Inv(s) && CountsOk(s) && Possible(s, Takes(w))
    ensures CountsOk(Happen(s, Takes(w)))
  {
  }

  lemma ExitKeepsCounts(s: Sys, w: nat)
    requires CountsOk(s) && Possible(s, Exits(w))
    ensures CountsOk(Happen(s, Exits(w)))
  {
  }

  lemma StillKeepsCounts(s: Sys, s': Sys)
    requires CountsOk(s) && s'.h.log == s.h.log && s'.fails == s.fails
    requires s'.workers == s.workers && s'.queue.processing == s.queue.processing
    ensures CountsOk(s')
  {
  }

  lemma EnqueueKeepsCounts(s: Sys, step: Step)
    requires CountsOk(s) && Possible(s, step) && (step.Fires? || step.EnqueueNext?)
    ensures CountsOk(Happen(s, step))
  {
    EnqueueFootprint(s, step);
    StillKeepsCounts(s, Happen(s, step));
  }

  lemma WriteKeepsCounts(s: Sys, step: Step)
    requires CountsOk(s) && Possible(s, step) && (step.UserPut? || step.UserMark?)
    ensures CountsOk(Happen(s, step))
  {
  }

  lemma ControlKeepsCounts(s: Sys, step: Step)
    requires CountsOk(s) && Possible(s, step) && !step.Acts? && !step.Takes? && !step.Exits?
    requires !step.Fires? && !step.EnqueueNext? && !step.UserPut? && !step.UserMark?
    ensures CountsOk(Happen(s, step))
  {
  }

  lemma StepKeepsCounts(s: Sys, step: Step)
    requires Inv(s) && CountsOk(s) && Enabled(s, step)
    ensures CountsOk(Do(s, step))
  {
    match step
    case Acts(w, act) => ActKeepsCounts(s, w, act, Effect(s, w, act));
    case Takes(w) => TakeKeepsCounts(s, w);
    case Exits(w) => ExitKeepsCounts(s, w);
    case Fires(_) => EnqueueKeepsCounts(s, step);
    case EnqueueNext => EnqueueKeepsCounts(s, step);
    case UserPut(_, _, _) => WriteKeepsCounts(s, step);
    case UserMark(_) => WriteKeepsCounts(s, step);
    case _ => ControlKeepsCounts(s, step);
  }

  lemma {:induction false} RunKeepsCounts(s: Sys, steps: seq<Step>)
    requires Inv(s) && CountsOk(s) && LegalRun(s, steps)
    ensures CountsOk(Run(s, steps))
    decreases steps
  {
    if steps != [] {
      StepKeepsInv(s, steps[0]);
      StepKeepsCounts(s, steps[0]);
      RunKeepsCounts(Do(s, steps[0]), steps[1..]);
    }
  }

  /** Between passes, the failure count of a key is the length of its trailing run of
      failed passes: waiting on a reference or a removal accrues no backoff. */
  lemma BackoffCountsFailedPasses(s: Sys, key: Key)
    requires Reachable(s) && key !in s.queue.processing
    ensures Failures(s.fails, key) == TrailingFailures(Log(s.h, key))
  {
    var s0, steps :| Initial(s0) && LegalRun(s0, steps) && Run(s0, steps) == s;
    InitialInv(s0);
    RunKeepsCounts(s0, steps);
  }
}
