/** When a write accepted by the server reaches a pass, and the one way it does not: it
    hits a marked entry that a worker is about to erase (core/server/server.go:127-131,
    core/store/memory.go:33-38, 100-109, core/reconcile/reconciler.go:274-324). */
module AbsorbedWrites {
  import opened Model
  import opened Queues
  import opened Engine
  import opened System
  import opened SystemInvariant
  import opened SystemFootprint
  import opened SystemTheorems

  predicate WritesTo(step: Step, key: Key) {
    (step.UserPut? || step.UserMark?) && step.key == key
  }

  /** The worker is between reading the deletion mark and erasing the entry. */
  ghost predicate Doomed(x: Worker, key: Key) {
    (x.Examining? || x.Erasing?) && x.key == key
  }

  ghost predicate AnyDoomed(workers: seq<Worker>, key: Key) {
    exists w :: 0 <= w < |workers| && Doomed(workers[w], key)
  }

  /** Of the writes to `key`, the first n are accounted for: a pass has read the entry
      after the n-th, or the entry is still there and something leads to a read of it
      (save after shutdown, or after a failed List until the next sweep). */
  ghost predicate Kept(s: Sys, key: Key, n: nat) {
    || Count(s.h.seen, key) >= n
    || (key in s.items && (s.cancelled || s.h.sweepFailed || SystemTheorems.Pending(s, key)))
  }

  // A write nobody is about to erase stays until it is read.

  ghost predicate Safe(s: Sys, key: Key, n: nat) {
    && Count(s.h.written, key) >= n
    && (Count(s.h.seen, key) >= n || (key in s.items && !AnyDoomed(s.workers, key)))
  }

  lemma NotDoomedByOthers(workers: seq<Worker>, w: nat, x': Worker, key: Key)
    requires w < |workers| && !AnyDoomed(workers, key) && !Doomed(x', key)
    ensures !AnyDoomed(workers[w := x'], key)
  {
  }

  lemma ActKeepsSafe(s: Sys, w: nat, act: Act, s': Sys, key: Key, n: nat)
    requires Inv(s) && Safe(s, key, n) && CanAct(s, w, act) && s' == Effect(s, w, act)
    ensures Safe(s', key, n)
  {
    var x := s.workers[w];
    if x.Releasing? {
      if !AnyDoomed(s.workers, key) {
        NotDoomedByOthers(s.workers, w, Idle, key);
      }
    } else {
      ActFootprint(s, w, act);
      FootprintKeepsSafe(s, s', w, x, s'.workers[w], act, key, n);
    }
  }

  lemma FootprintKeepsSafe(s: Sys, s': Sys, w: nat, x: Worker, x': Worker, act: Act, key: Key, n: nat)
    requires Footprint(s, s', w, x, x', act) && Safe(s, key, n)
    ensures Safe(s', key, n)
  {
    if Count(s.h.seen, key) < n && !(StartsPass(x, act) && x.key == key) {
      assert !Doomed(x, key);
      NotDoomedByOthers(s.workers, w, x', key);
    }
  }

  lemma TakeKeepsSafe(s: Sys, step: Step, key: Key, n: nat)
    requires Safe(s, key, n) && Possible(s, step) && (step.Takes? || step.Exits?)
    ensures Safe(Happen(s, step), key, n)
  {
    if !AnyDoomed(s.workers, key) {
      NotDoomedByOthers(s.workers, step.w, Happen(s, step).workers[step.w], key);
    }
  }

  lemma HappenKeepsSafe(s: Sys, step: Step, s': Sys, key: Key, n: nat)
    requires Safe(s, key, n) && Possible(s, step) && s' == Happen(s, step)
    ensures Safe(s', key, n)
  {
    if step.Takes? || step.Exits? {
      TakeKeepsSafe(s, step, key, n);
    } else {
      HappenWorkers(s, step);
      HappenHistory(s, step);
      assert key in s.items ==> key in s'.items;
    }
  }

  lemma StepKeepsSafe(s: Sys, step: Step, key: Key, n: nat)
    requires Inv(s) && Safe(s, key, n) && Enabled(s, step)
    ensures Safe(Do(s, step), key, n)
  {
    if step.Acts? {
      ActKeepsSafe(s, step.w, step.act, Effect(s, step.w, step.act), key, n);
    } else {
      HappenKeepsSafe(s, step, Happen(s, step), key, n);
    }
  }

  lemma {:induction false} RunKeepsSafe(s: Sys, steps: seq<Step>, key: Key, n: nat)
    requires Inv(s) && Safe(s, key, n) && LegalRun(s, steps)
    ensures Safe(Run(s, steps), key, n)
    decreases steps
  {
    if steps != [] {
      StepKeepsInv(s, steps[0]);
      StepKeepsSafe(s, steps[0], key, n);
      RunKeepsSafe(Do(s, steps[0]), steps[1..], key, n);
    }
  }

  // No pass sees more writes than there were.

  ghost predicate SeenOk(s: Sys) {
    forall key | key in s.h.seen :: Count(s.h.seen, key) <= Count(s.h.written, key)
  }

  lemma StepKeepsSeen(s: Sys, step: Step)
    requires Inv(s) && SeenOk(s) && Enabled(s, step)
    ensures SeenOk(Do(s, step))
  {
    if step.Acts? {
      ActKeepsSeen(s, step.w, step.act, Effect(s, step.w, step.act));
    } else {
      HappenKeepsSeen(s, step, Happen(s, step));
    }
  }

  lemma HappenKeepsSeen(s: Sys, step: Step, s': Sys)
    requires SeenOk(s) && Possible(s, step) && s' == Happen(s, step)
    ensures SeenOk(s')
  {
    HappenHistory(s, step);
  }

  lemma ActKeepsSeen(s: Sys, w: nat, act: Act, s': Sys)
    requires Inv(s) && SeenOk(s) && CanAct(s, w, act) && s' == Effect(s, w, act)
    ensures SeenOk(s')
  {
    if !s.workers[w].Releasing? {
      ActFootprint(s, w, act);
    }
  }

  lemma {:induction false} RunKeepsSeen(s: Sys, steps: seq<Step>)
    requires Inv(s) && SeenOk(s) && LegalRun(s, steps)
    ensures SeenOk(Run(s, steps))
    decreases steps
  {
    if steps != [] {
      StepKeepsInv(s, steps[0]);
      StepKeepsSeen(s, steps[0]);
      RunKeepsSeen(Do(s, steps[0]), steps[1..]);
    }
  }

  // A doomed entry can go with the write unread.

  lemma WriteChanges(s: Sys, step: Step, key: Key, s': Sys)
    requires Enabled(s, step) && WritesTo(step, key) && s' == Do(s, step)
    ensures key in s'.items && s'.workers == s.workers && s'.sub == s.sub && s'.h.seen == s.h.seen
    ensures Count(s'.h.written, key) == Count(s.h.written, key) + 1
  {
  }

  lemma EraseIsPossible(s: Sys, w: nat, key: Key) returns (step: Step)
    requires w < |s.workers| && s.workers[w] == Erasing(key)
    ensures Enabled(s, step) && key !in Do(s, step).items && Do(s, step).h.seen == s.h.seen
  {
    step := Acts(w, Succeeds);
  }

  lemma ExamineIsPossible(s: Sys, w: nat, key: Key) returns (step: Step)
    requires w < |s.workers| && s.workers[w] == Examining(key) && Owned(s.sub, key) == {}
    ensures Enabled(s, step)
    ensures |Do(s, step).workers| == |s.workers| && Do(s, step).workers[w] == Erasing(key) && Do(s, step).h == s.h
  {
    step := Acts(w, Succeeds);
  }

  lemma DriftIsPossible(s: Sys, key: Key) returns (step: Step)
    requires Inv(s) && Owned(s.sub, key) != {}
    ensures Enabled(s, step) && Do(s, step).workers == s.workers && Do(s, step).h == s.h && Owned(Do(s, step).sub, key) == {}
  {
    var id :| id in Owned(s.sub, key);
    step := DriftRemoves(id);
  }

  lemma Prepend(s: Sys, step: Step, rest: seq<Step>)
    requires Enabled(s, step) && LegalRun(Do(s, step), rest)
    ensures LegalRun(s, [step] + rest) && Run(s, [step] + rest) == Run(Do(s, step), rest)
  {
    assert ([step] + rest)[1..] == rest;
  }

  /** From the examination on, at most three steps erase the entry. */
  lemma DoomedCanBeErased(s: Sys, w: nat, key: Key) returns (steps: seq<Step>)
    requires Inv(s) && w < |s.workers| && Doomed(s.workers[w], key)
    ensures LegalRun(s, steps) && key !in Run(s, steps).items && Run(s, steps).h.seen == s.h.seen
    decreases if s.workers[w].Erasing? then 0 else if Owned(s.sub, key) == {} then 1 else 2
  {
    var step;
    if s.workers[w].Erasing? {
      step := EraseIsPossible(s, w, key);
      steps := [];
      assert LegalRun(Do(s, step), []);
    } else {
      if Owned(s.sub, key) == {} {
        step := ExamineIsPossible(s, w, key);
      } else {
        step := DriftIsPossible(s, key);
      }
      StepKeepsInv(s, step);
      steps := DoomedCanBeErased(Do(s, step), w, key);
    }
    Prepend(s, step, steps);
    steps := [step] + steps;
  }

  // The theorem.

  lemma SafeIsKept(s: Sys, key: Key, n: nat)
    requires WritesPending(s) && Safe(s, key, n)
    ensures Kept(s, key, n)
  {
    if Count(s.h.seen, key) < n {
      assert UnreadWrite(s, key);
    }
  }

  lemma WriteIsKept(s: Sys, step: Step, key: Key, steps: seq<Step>)
    requires Reachable(s) && Enabled(s, step) && WritesTo(step, key) && !AnyDoomed(s.workers, key)
    requires LegalRun(Do(s, step), steps)
    ensures Kept(Run(Do(s, step), steps), key, Count(Do(s, step).h.written, key))
  {
    var s', n := Do(s, step), Count(Do(s, step).h.written, key);
    ReachableInv(s);
    ReachablePending(s);
    WriteChanges(s, step, key, s');
    StepKeepsInv(s, step);
    StepKeepsWritesPending(s, step);
    StepKeepsRetries(s, step);
    RunKeepsSafe(s', steps, key, n);
    RunKeepsPending(s', steps);
    SafeIsKept(Run(s', steps), key, n);
  }

  lemma WriteCanBeLost(s: Sys, step: Step, key: Key) returns (steps: seq<Step>)
    requires Reachable(s) && Enabled(s, step) && WritesTo(step, key) && AnyDoomed(s.workers, key)
    ensures LegalRun(Do(s, step), steps)
    ensures !Kept(Run(Do(s, step), steps), key, Count(Do(s, step).h.written, key))
  {
    ReachableInv(s);
    ReachableSeen(s);
    WriteChanges(s, step, key, Do(s, step));
    StepKeepsInv(s, step);
    var w :| 0 <= w < |s.workers| && Doomed(s.workers[w], key);
    steps := DoomedCanBeErased(Do(s, step), w, key);
    assert Count(s.h.seen, key) <= Count(s.h.written, key);
  }

  lemma ReachableSeen(s: Sys)
    requires Reachable(s)
    ensures SeenOk(s)
  {
    var s0, steps :| Initial(s0) && LegalRun(s0, steps) && Run(s0, steps) == s;
    InitialInv(s0);
    RunKeepsSeen(s0, steps);
  }

  /** An accepted write is kept in every run that follows if and only if, when it is
      made, no worker stands between reading the deletion mark of its key and erasing
      the entry. */
  lemma NoLostWriteIff(s: Sys, step: Step, key: Key)
    requires Reachable(s) && Enabled(s, step) && WritesTo(step, key)
    ensures !AnyDoomed(s.workers, key) <==>
            forall steps | LegalRun(Do(s, step), steps) :: Kept(Run(Do(s, step), steps), key, Count(Do(s, step).h.written, key))
  {
    if AnyDoomed(s.workers, key) {
      var lost := WriteCanBeLost(s, step, key);
    } else {
      forall steps | LegalRun(Do(s, step), steps)
        ensures Kept(Run(Do(s, step), steps), key, Count(Do(s, step).h.written, key))
      {
        WriteIsKept(s, step, key, steps);
      }
    }
  }

  /** So a write to an absent or unmarked entry, the first Delete included, is never
      lost. */
  lemma UnmarkedWriteIsNeverLost(s: Sys, step: Step, key: Key, steps: seq<Step>)
    requires Reachable(s) && Enabled(s, step) && WritesTo(step, key) && (key in s.items ==> !s.items[key].marked)
    requires LegalRun(Do(s, step), steps)
    ensures Kept(Run(Do(s, step), steps), key, Count(Do(s, step).h.written, key))
  {
    ReachableInv(s);
    forall w | 0 <= w < |s.workers| ensures !Doomed(s.workers[w], key) {
      if Holds(s.workers[w]) {
        assert WorkerOk(s, s.workers[w]);
      }
    }
    WriteIsKept(s, step, key, steps);
  }

  // It happens: a run that loses a write with nothing left to do.

  lemma {:induction false} RunThenStep(s0: Sys, steps: seq<Step>, step: Step)
    requires LegalRun(s0, steps) && Enabled(Run(s0, steps), step)
    ensures LegalRun(s0, steps + [step]) && Run(s0, steps + [step]) == Do(Run(s0, steps), step)
    decreases steps
  {
    var all := steps + [step];
    if steps == [] {
      assert all == [step] && all[1..] == [];
      assert LegalRun(Do(s0, step), []);
    } else {
      assert all[0] == steps[0] && all[1..] == steps[1..] + [step];
      RunThenStep(Do(s0, steps[0]), steps[1..], step);
    }
  }

  lemma StaysReachable(s: Sys, step: Step)
    requires Reachable(s) && Enabled(s, step)
    ensures Reachable(Do(s, step))
  {
    var s0, steps :| Initial(s0) && LegalRun(s0, steps) && Run(s0, steps) == s;
    RunThenStep(s0, steps, step);
  }

  const K := Key("volume", "data")
  const SPEC := "{}"

  /** Everything of the state that matters to the run below. */
  ghost predicate At(s: Sys, items: Items, queue: Queue<Key>, worker: Worker, loop: Loop, nudge: bool, owed: nat, written: nat, seen: nat) {
    && Reachable(s) && s.items == items && s.queue == queue && s.workers == [worker]
    && s.loop == loop && s.nudge == nudge && s.owed == multiset{}[K := owed] && s.timers == multiset{}
    && Count(s.h.written, K) == written && Count(s.h.seen, K) == seen && !s.cancelled && !s.h.sweepFailed
  }

  function Entry(marked: bool): Items {
    map[K := Resource(SPEC, map[], marked, UNOBSERVED)]
  }

  const EMPTY: Queue<Key> := Queue([], {}, {}, false)
  const QUEUED: Queue<Key> := Queue([K], {K}, {}, false)
  const HELD: Queue<Key> := Queue([], {}, {K}, false)

  lemma Started() returns (s: Sys)
    ensures At(s, map[], EMPTY, Idle, Sweeping, false, 0, 0, 0)
  {
    var h := History(map[], map[], {}, [], {}, {}, map[], false);
    s := Sys(map[], Substrate.Substrate(map[], {}), EMPTY, map[], multiset{}, [Idle], Sweeping, false, multiset{}, false, h);
    assert LegalRun(s, []) && Run(s, []) == s;
  }

  lemma Accepted() returns (s: Sys)
    ensures At(s, Entry(false), EMPTY, Idle, Sweeping, false, 1, 1, 0)
  {
    var s0 := Started();
    StaysReachable(s0, UserPut(K, SPEC, map[]));
    s := Do(s0, UserPut(K, SPEC, map[]));
  }

  lemma Marked() returns (s: Sys)
    ensures At(s, Entry(true), EMPTY, Idle, Sweeping, false, 2, 2, 0)
  {
    var s0 := Accepted();
    StaysReachable(s0, UserMark(K));
    s := Do(s0, UserMark(K));
  }

  lemma Listed() returns (s: Sys)
    ensures At(s, Entry(true), EMPTY, Idle, Enqueuing([K]), false, 2, 2, 0)
  {
    var s0 := Marked();
    StaysReachable(s0, Sweep([K]));
    s := Do(s0, Sweep([K]));
  }

  lemma Enqueued() returns (s: Sys)
    ensures At(s, Entry(true), QUEUED, Idle, Enqueuing([]), false, 2, 2, 0)
  {
    var s0 := Listed();
    StaysReachable(s0, EnqueueNext);
    s := Do(s0, EnqueueNext);
  }

  lemma PickedUp() returns (s: Sys)
    ensures At(s, Entry(true), HELD, Held(K), Enqueuing([]), false, 2, 2, 0)
  {
    var s0 := Enqueued();
    StaysReachable(s0, Takes(0));
    s := Do(s0, Takes(0));
  }

  lemma AboutToErase() returns (s: Sys)
    ensures At(s, Entry(true), HELD, Erasing(K), Enqueuing([]), false, 2, 2, 2)
  {
    var s0 := PickedUp();
    StaysReachable(s0, Acts(0, Succeeds));
    s := Do(s0, Acts(0, Succeeds));
  }

  lemma Rewritten() returns (s: Sys)
    ensures At(s, Entry(true), HELD, Erasing(K), Enqueuing([]), false, 3, 3, 2)
  {
    var s0 := AboutToErase();
    StaysReachable(s0, UserPut(K, SPEC, map[]));
    s := Do(s0, UserPut(K, SPEC, map[]));
  }

  lemma Erased() returns (s: Sys)
    ensures At(s, map[], HELD, Forgetting(K), Enqueuing([]), false, 3, 3, 2)
  {
    var s0 := Rewritten();
    StaysReachable(s0, Acts(0, Succeeds));
    s := Do(s0, Acts(0, Succeeds));
  }

  lemma Forgot() returns (s: Sys)
    ensures At(s, map[], HELD, Releasing(K), Enqueuing([]), false, 3, 3, 2)
  {
    var s0 := Erased();
    StaysReachable(s0, Acts(0, Succeeds));
    s := Do(s0, Acts(0, Succeeds));
  }

  lemma Released() returns (s: Sys)
    ensures At(s, map[], EMPTY, Idle, Enqueuing([]), false, 3, 3, 2)
  {
    var s0 := Forgot();
    StaysReachable(s0, Acts(0, Succeeds));
    s := Do(s0, Acts(0, Succeeds));
  }

  lemma Nudged() returns (s: Sys)
    ensures At(s, map[], EMPTY, Idle, Waiting, true, 0, 3, 2)
  {
    var s0 := Released();
    StaysReachable(s0, ServerNudge(K));
    var s1 := Do(s0, ServerNudge(K));
    StaysReachable(s1, ServerNudge(K));
    var s2 := Do(s1, ServerNudge(K));
    StaysReachable(s2, ServerNudge(K));
    var s3 := Do(s2, ServerNudge(K));
    StaysReachable(s3, EnqueueNext);
    s := Do(s3, EnqueueNext);
  }

  lemma Swept() returns (s: Sys)
    ensures At(s, map[], EMPTY, Idle, Waiting, false, 0, 3, 2)
  {
    var s0 := Nudged();
    StaysReachable(s0, TakeNudge);
    var s1 := Do(s0, TakeNudge);
    StaysReachable(s1, Sweep([]));
    var s2 := Do(s1, Sweep([]));
    StaysReachable(s2, EnqueueNext);
    s := Do(s2, EnqueueNext);
  }

  /** A reachable state, nothing shut down, in which an accepted Put has been read by no
      pass and nothing will lead to a read. */
  lemma AWriteCanBeAbsorbed() returns (s: Sys)
    ensures Reachable(s) && !s.cancelled && !s.h.sweepFailed
    ensures Count(s.h.seen, K) < Count(s.h.written, K) && !SystemTheorems.Pending(s, K)
  {
    s := Swept();
  }
}
