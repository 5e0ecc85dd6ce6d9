/** The invariant of the control plane: what every step of every interleaving keeps. */
module SystemInvariant {
  import opened Model
  import opened Queues
  import opened Engine
  import opened System
  import opened Ordered
  import QueueRuns
  import Store

  /** On the way to create or keep the object of an unmarked snapshot. */
  ghost predicate Converging(x: Worker) {
    || x.Resolving? || x.Observing? || x.Making? || x.Starting? || x.Reobserving?
    || (x.Listing? && x.update.Some?) || (x.Removing? && x.update.Some?)
  }

  /** On the way to remove a resource whose mark this pass has read. */
  ghost predicate TearingDown(x: Worker) {
    || x.Examining? || x.Erasing?
    || (x.Listing? && x.update.None?) || (x.Removing? && x.update.None?)
  }

  /** What a worker in the middle of a pass knows of its own key. */
  ghost predicate WorkerOk(s: Sys, x: Worker) {
    && (Converging(x) ==> x.key in s.items && x.key !in s.h.condemned)
    && (TearingDown(x) ==> x.key in s.items && s.items[x.key].marked && x.key in s.h.condemned)
    && ((Converging(x) && !x.Resolving?) || (TearingDown(x) && !x.Erasing?) ==> Managed(x.key))
    && (x.Making? || x.Erasing? ==> Owned(s.sub, x.key) == {})
    && (x.Starting? ==>
          && Owned(s.sub, x.key) <= {x.id} && x.id in s.sub.issued
          && (x.id in s.sub.objs ==> s.sub.objs[x.id].key == x.key))
    && (x.Removing? ==>
          && (forall id | id in Owned(s.sub, x.key) :: id in x.ids)
          && (forall id | id in x.ids :: id in s.sub.issued && (id in s.sub.objs ==> s.sub.objs[id].key == x.key)))
  }

  ghost predicate WorkersOk(s: Sys) {
    forall w | 0 <= w < |s.workers| && Holds(s.workers[w]) :: WorkerOk(s, s.workers[w])
  }

  /** Each owned object is accounted for, and alone. */
  ghost predicate ObjectsOk(s: Sys) {
    && (forall id | id in s.sub.objs ::
          id in s.sub.issued && s.sub.objs[id].key in s.items && Managed(s.sub.objs[id].key))
    && (forall i, j | i in s.sub.objs && j in s.sub.objs :: s.sub.objs[i].key == s.sub.objs[j].key ==> i == j)
  }

  ghost predicate CondemnedOk(s: Sys) {
    forall k | k in s.h.condemned :: k in s.items && s.items[k].marked
  }

  /** The queue and the workers agree on who holds what, and no key is held twice. */
  ghost predicate HoldersOk(s: Sys) {
    && Ok(s.queue)
    && (forall w | 0 <= w < |s.workers| && Holds(s.workers[w]) :: s.workers[w].key in s.queue.processing)
    && (forall v, w | 0 <= v < w < |s.workers| && Holds(s.workers[v]) && Holds(s.workers[w]) ::
          s.workers[v].key != s.workers[w].key)
    && (s.queue.shuttingDown ==> s.cancelled)
    && (s.loop.Stopped? ==> s.cancelled)
  }

  ghost predicate Inv(s: Sys) {
    WorkersOk(s) && ObjectsOk(s) && CondemnedOk(s) && HoldersOk(s)
  }

  // A step leaves alone what workers on other keys rely on.

  ghost predicate Undisturbed(s: Sys, s': Sys, k: Key) {
    && (k in s.items ==> k in s'.items && (s.items[k].marked ==> s'.items[k].marked))
    && (k in s.h.condemned <==> k in s'.h.condemned)
    && Owned(s'.sub, k) <= Owned(s.sub, k)
  }

  ghost predicate NoReuse(s: Sys, s': Sys) {
    && s.sub.issued <= s'.sub.issued
    && forall id | id in s.sub.issued && id in s'.sub.objs ::
         id in s.sub.objs && s.sub.objs[id].key == s'.sub.objs[id].key
  }

  lemma UndisturbedWorker(s: Sys, s': Sys, x: Worker)
    requires Holds(x) && WorkerOk(s, x) && NoReuse(s, s') && Undisturbed(s, s', x.key)
    ensures WorkerOk(s', x)
  {
  }

  /** A step of the worker at w, on key k, that goes on with the same key. */
  ghost predicate StepsOn(s: Sys, s': Sys, w: nat, k: Key) {
    && w < |s.workers| && |s'.workers| == |s.workers|
    && (forall v | 0 <= v < |s.workers| && v != w :: s'.workers[v] == s.workers[v])
    && Holds(s'.workers[w]) && s'.workers[w].key == k
    && s'.queue == s.queue && s'.cancelled == s.cancelled && s'.loop == s.loop
    && NoReuse(s, s')
    && (forall k' | k' != k :: Undisturbed(s, s', k'))
  }

  ghost predicate StepOk(s: Sys, s': Sys, w: nat, k: Key) {
    StepsOn(s, s', w, k) && WorkerOk(s', s'.workers[w]) && ObjectsOk(s') && CondemnedOk(s')
  }

  lemma StepsOnKeepsInv(s: Sys, s': Sys, w: nat)
    requires Inv(s) && w < |s.workers| && Holds(s.workers[w]) && StepOk(s, s', w, s.workers[w].key)
    ensures Inv(s')
  {
    forall v | 0 <= v < |s'.workers| && Holds(s'.workers[v]) ensures WorkerOk(s', s'.workers[v]) {
      if v != w {
        assert s.workers[v].key != s.workers[w].key;
        UndisturbedWorker(s, s', s.workers[v]);
      }
    }
  }

  // One lemma per place a worker can be.

  /** The worker at w goes on with its key; queue and loop are as before. */
  ghost predicate Moves(s: Sys, s': Sys, w: nat, x': Worker) {
    && w < |s.workers| && Holds(s.workers[w]) && Holds(x') && x'.key == s.workers[w].key
    && s'.workers == s.workers[w := x']
    && s'.queue == s.queue && s'.cancelled == s.cancelled && s'.loop == s.loop
  }

  /** Nothing but the worker's place and the bookkeeping changes. */
  ghost predicate Quiet(s: Sys, s': Sys) {
    s'.sub == s.sub && s'.items == s.items && s'.h.condemned == s.h.condemned
  }

  lemma QuietOk(s: Sys, s': Sys, w: nat, x': Worker)
    requires Inv(s) && Moves(s, s', w, x') && Quiet(s, s') && WorkerOk(s, x')
    ensures StepOk(s, s', w, x'.key)
  {
  }

  /** Only entries, marks and objects of `k` change; new objects have new ids. */
  ghost predicate Touches(s: Sys, s': Sys, k: Key) {
    && (forall k' | k' != k && k' in s.items :: k' in s'.items && s'.items[k'] == s.items[k'])
    && (forall k' | k' != k :: k' in s.h.condemned <==> k' in s'.h.condemned)
    && NoReuse(s, s')
    && (forall id | id in s'.sub.objs && s'.sub.objs[id].key != k :: id in s.sub.objs && s.sub.objs[id].key == s'.sub.objs[id].key)
  }

  lemma TouchesOk(s: Sys, s': Sys, w: nat, x': Worker)
    requires Moves(s, s', w, x') && Touches(s, s', x'.key)
    requires WorkerOk(s', x') && ObjectsOk(s') && CondemnedOk(s')
    ensures StepOk(s, s', w, x'.key)
  {
  }

  lemma SameSubstrate(s: Sys, s': Sys)
    requires s'.sub == s.sub && ObjectsOk(s)
    ensures NoReuse(s, s')
  {
  }

  lemma ConcludeOk(s: Sys, w: nat, x: Worker, outcome: Outcome)
    requires Inv(s) && w < |s.workers| && x == s.workers[w] && Holds(x)
    ensures StepOk(s, Conclude(s, w, x.key, outcome), w, x.key)
  {
  }

  lemma ReadUnmarkedOk(s: Sys, w: nat, x: Worker, todo: seq<Named>)
    requires Inv(s) && w < |s.workers| && x == s.workers[w] && x.Held? && (x.key in s.items ==> !s.items[x.key].marked)
    ensures StepOk(s, Read(s, w, x.key, todo), w, x.key)
  {
  }

  lemma ReadMarkedMoves(s: Sys, w: nat, x: Worker, todo: seq<Named>)
    requires w < |s.workers| && x == s.workers[w] && x.Held? && x.key in s.items && s.items[x.key].marked
    ensures
      var s' := Read(s, w, x.key, todo);
      var x' := s'.workers[w];
      && Moves(s, s', w, x') && s'.sub == s.sub && s'.items == s.items
      && s'.h.condemned == s.h.condemned + {x.key}
      && x' == (if Managed(x.key) then Examining(x.key) else Erasing(x.key))
  {
  }

  lemma CondemnOk(s: Sys, s': Sys, w: nat, x': Worker)
    requires Inv(s) && Moves(s, s', w, x') && s'.sub == s.sub && s'.items == s.items
    requires x'.key in s.items && s.items[x'.key].marked && s'.h.condemned == s.h.condemned + {x'.key}
    requires x' == (if Managed(x'.key) then Examining(x'.key) else Erasing(x'.key))
    ensures StepOk(s, s', w, x'.key)
  {
  }

  lemma ReadOk(s: Sys, w: nat, x: Worker, act: Act)
    requires Inv(s) && w < |s.workers| && x == s.workers[w] && x.Held?
    ensures StepOk(s, AtHeld(s, w, x, act), w, x.key)
  {
    if act.Fails? {
      ConcludeOk(s, w, x, Failed);
    } else {
      var todo := if x.key in s.items then InNameOrder(s.items[x.key].references) else [];
      if x.key in s.items && s.items[x.key].marked {
        ReadMarkedMoves(s, w, x, todo);
        CondemnOk(s, Read(s, w, x.key, todo), w, Read(s, w, x.key, todo).workers[w]);
      } else {
        ReadUnmarkedOk(s, w, x, todo);
      }
    }
  }

  /** The worker only moves on, to one of the places after resolution. */
  ghost predicate ResolveMove(s: Sys, s': Sys, w: nat, x': Worker) {
    && Moves(s, s', w, x') && Quiet(s, s')
    && (x'.Reporting? || x'.Resolving? || (x'.Observing? && Managed(x'.key)))
  }

  lemma BeginMoves(s: Sys, w: nat, x: Worker, resolved: Option<Bytes>)
    requires w < |s.workers| && x == s.workers[w] && x.Resolving?
    ensures
      var s' := BeginConverge(s, w, x.key, resolved);
      ResolveMove(s, s', w, s'.workers[w])
  {
  }

  lemma NextMoves(s: Sys, w: nat, x: Worker)
    requires w < |s.workers| && x == s.workers[w] && x.Resolving?
    ensures
      var s' := ResolveNext(s, w, x.key, x.snapshot, x.todo, x.values);
      ResolveMove(s, s', w, s'.workers[w])
  {
    if x.todo == [] {
      BeginMoves(s, w, x, Resolved(x.snapshot, x.values));
    } else {
      var s' := ResolveNext(s, w, x.key, x.snapshot, x.todo, x.values);
      assert s' == Move(s, w, s'.workers[w]);
    }
  }

  lemma ResolveMoves(s: Sys, w: nat, x: Worker, act: Act)
    requires w < |s.workers| && x == s.workers[w] && x.Resolving?
    ensures
      var s' := AtResolving(s, w, x, act);
      ResolveMove(s, s', w, s'.workers[w])
  {
    NextMoves(s, w, x);
  }

  lemma ResolveOk(s: Sys, w: nat, x: Worker, act: Act)
    requires Inv(s) && w < |s.workers| && x == s.workers[w] && x.Resolving?
    ensures StepOk(s, AtResolving(s, w, x, act), w, x.key)
  {
    var s' := AtResolving(s, w, x, act);
    ResolveMoves(s, w, x, act);
    assert WorkerOk(s, x);
    QuietOk(s, s', w, s'.workers[w]);
  }

  lemma ObservedMoves(s: Sys, w: nat, x: Worker, obs: Observation)
    requires w < |s.workers| && x == s.workers[w] && x.Observing?
    ensures
      var s' := Observed(s, w, x.key, x.spec, obs);
      var x' := s'.workers[w];
      && Moves(s, s', w, x') && Quiet(s, s')
      && (x'.Reporting? || (x'.Listing? && x'.update.Some?) || (x'.Making? && !obs.exists_))
  {
  }

  lemma ObservedOk(s: Sys, s': Sys, w: nat, x: Worker, x': Worker, obs: Observation)
    requires Inv(s) && w < |s.workers| && x == s.workers[w] && x.Observing? && Moves(s, s', w, x') && Quiet(s, s')
    requires x'.Reporting? || (x'.Listing? && x'.update.Some?) || (x'.Making? && Owned(s.sub, x.key) == {})
    ensures StepOk(s, s', w, x.key)
  {
  }

  lemma ObserveOk(s: Sys, w: nat, x: Worker, act: Act)
    requires Inv(s) && CanAct(s, w, act) && x == s.workers[w] && x.Observing?
    ensures StepOk(s, AtObserving(s, w, x, act), w, x.key)
  {
    var s' := AtObserving(s, w, x, act);
    if !act.Fails? {
      ObservedMoves(s, w, x, Answer(s, x.spec, act));
    }
    ObservedOk(s, s', w, x, s'.workers[w], Answer(s, x.spec, act));
  }

  lemma ListOk(s: Sys, w: nat, x: Worker, act: Act)
    requires Inv(s) && CanAct(s, w, act) && x == s.workers[w] && x.Listing?
    ensures StepOk(s, AtListing(s, w, x, act), w, x.key)
  {
  }

  lemma RemoveFirst(s: Sys, s': Sys, w: nat, x: Worker, x': Worker)
    requires Inv(s) && w < |s.workers| && x == s.workers[w] && x.Removing? && x.ids != []
    requires x' == x.(ids := x.ids[1..]) && s' == s.(workers := s.workers[w := x'], sub := Remove(s.sub, {x.ids[0]}))
    ensures StepOk(s, s', w, x.key)
  {
    assert WorkerOk(s, x);
    assert x.ids == [x.ids[0]] + x.ids[1..];
    assert forall id | id in Owned(s'.sub, x.key) :: id in Owned(s.sub, x.key) && id != x.ids[0];
    TouchesOk(s, s', w, x');
  }

  lemma SkipFirst(s: Sys, s': Sys, w: nat, x: Worker, x': Worker)
    requires Inv(s) && w < |s.workers| && x == s.workers[w] && x.Removing? && x.ids != [] && x.ids[0] !in s.sub.objs
    requires x' == x.(ids := x.ids[1..]) && s' == s.(workers := s.workers[w := x'])
    ensures StepOk(s, s', w, x.key)
  {
  }

  lemma NoneLeftOk(s: Sys, w: nat, x: Worker)
    requires Inv(s) && w < |s.workers| && x == s.workers[w] && x.Removing? && x.ids == []
    ensures StepOk(s, NoneLeft(s, w, x.key, x.update), w, x.key)
  {
    assert WorkerOk(s, x);
    assert Owned(s.sub, x.key) == {};
    var s' := NoneLeft(s, w, x.key, x.update);
    QuietOk(s, s', w, s'.workers[w]);
  }

  lemma RemovalFailsOk(s: Sys, w: nat, x: Worker)
    requires Inv(s) && w < |s.workers| && x == s.workers[w] && x.Removing?
    ensures StepOk(s, RemovalFails(s, w, x.key, x.update), w, x.key)
  {
  }

  lemma RemoveOk(s: Sys, w: nat, x: Worker, act: Act)
    requires Inv(s) && w < |s.workers| && x == s.workers[w] && x.Removing?
    ensures StepOk(s, AtRemoving(s, w, x, act), w, x.key)
  {
    var s' := AtRemoving(s, w, x, act);
    if s' == RemovalFails(s, w, x.key, x.update) {
      RemovalFailsOk(s, w, x);
    } else if x.ids == [] {
      NoneLeftOk(s, w, x);
    } else if x.ids[0] in s.sub.objs {
      RemoveFirst(s, s', w, x, s'.workers[w]);
    } else {
      SkipFirst(s, s', w, x, s'.workers[w]);
    }
  }

  lemma AddOk(s: Sys, s': Sys, k: Key, id: ObjId, obj: Obj)
    requires ObjectsOk(s) && Owned(s.sub, k) == {} && id !in s.sub.issued && obj.key == k && k in s.items && Managed(k)
    requires s'.sub == Add(s.sub, id, obj) && s'.items == s.items
    ensures ObjectsOk(s') && NoReuse(s, s') && Owned(s'.sub, k) == {id}
  {
  }

  lemma MadeOk(s: Sys, w: nat, x: Worker, act: Act)
    requires Inv(s) && w < |s.workers| && x == s.workers[w] && x.Making? && act.Makes? && act.id !in s.sub.issued
    ensures StepOk(s, Make(s, w, x.key, x.spec, act), w, x.key)
  {
    var s' := Make(s, w, x.key, x.spec, act);
    assert WorkerOk(s, x);
    AddOk(s, s', x.key, act.id, NewObj(x.key, x.spec, act.image, act.network, act.driver));
    TouchesOk(s, s', w, s'.workers[w]);
  }

  lemma MakeOk(s: Sys, w: nat, x: Worker, act: Act)
    requires Inv(s) && CanAct(s, w, act) && x == s.workers[w] && x.Making?
    ensures StepOk(s, AtMaking(s, w, x, act), w, x.key)
  {
    var s' := AtMaking(s, w, x, act);
    assert WorkerOk(s, x);
    if act.Fails? {
      QuietOk(s, s', w, s'.workers[w]);
    } else {
      MadeOk(s, w, x, act);
    }
  }

  lemma SetStateOk(s: Sys, s': Sys, id: ObjId, state: Bytes)
    requires ObjectsOk(s) && s'.sub == SetState(s.sub, id, state) && s'.items == s.items
    ensures ObjectsOk(s') && NoReuse(s, s') && forall k :: Owned(s'.sub, k) == Owned(s.sub, k)
  {
  }

  lemma RunsOk(s: Sys, s': Sys, w: nat, x: Worker, x': Worker)
    requires Inv(s) && w < |s.workers| && x == s.workers[w] && x.Starting? && Moves(s, s', w, x') && x'.Reobserving?
    requires s'.sub == SetState(s.sub, x.id, RUNNING) && s'.items == s.items && s'.h == s.h
    ensures StepOk(s, s', w, x.key)
  {
  }

  lemma StartOk(s: Sys, w: nat, x: Worker, act: Act)
    requires Inv(s) && CanAct(s, w, act) && x == s.workers[w] && x.Starting?
    ensures StepOk(s, AtStarting(s, w, x, act), w, x.key)
  {
    var s' := AtStarting(s, w, x, act);
    if act.Fails? {
      QuietOk(s, s', w, s'.workers[w]);
    } else {
      RunsOk(s, s', w, x, s'.workers[w]);
    }
  }

  lemma ReobserveOk(s: Sys, w: nat, x: Worker, act: Act)
    requires Inv(s) && CanAct(s, w, act) && x == s.workers[w] && x.Reobserving?
    ensures StepOk(s, AtReobserving(s, w, x, act), w, x.key)
  {
    QuietOk(s, AtReobserving(s, w, x, act), w, AtReobserving(s, w, x, act).workers[w]);
  }

  lemma ExamineOk(s: Sys, w: nat, x: Worker, act: Act)
    requires Inv(s) && w < |s.workers| && x == s.workers[w] && x.Examining?
    ensures StepOk(s, AtExamining(s, w, x, act), w, x.key)
  {
  }

  lemma EraseMoves(s: Sys, w: nat, x: Worker)
    requires w < |s.workers| && x == s.workers[w] && x.Erasing?
    ensures
      var s' := AtErasing(s, w, x, Succeeds);
      var x' := s'.workers[w];
      && Moves(s, s', w, x') && x'.Forgetting? && s'.sub == s.sub
      && s'.items == Store.Delete(s.items, x.key) && s'.h.condemned == s.h.condemned - {x.key}
  {
  }

  lemma ErasedOk(s: Sys, s': Sys, w: nat, x: Worker, x': Worker)
    requires Inv(s) && w < |s.workers| && x == s.workers[w] && x.Erasing? && Moves(s, s', w, x') && x'.Forgetting?
    requires s'.sub == s.sub && s'.items == Store.Delete(s.items, x.key) && s'.h.condemned == s.h.condemned - {x.key}
    ensures StepOk(s, s', w, x.key)
  {
    assert WorkerOk(s, x);
    assert forall id | id in s.sub.objs :: s.sub.objs[id].key == x.key ==> id in Owned(s.sub, x.key);
  }

  lemma EraseOk(s: Sys, w: nat, x: Worker, act: Act)
    requires Inv(s) && CanAct(s, w, act) && x == s.workers[w] && x.Erasing?
    ensures StepOk(s, AtErasing(s, w, x, act), w, x.key)
  {
    if act.Fails? {
      ConcludeOk(s, w, x, Failed);
    } else {
      EraseMoves(s, w, x);
      ErasedOk(s, AtErasing(s, w, x, act), w, x, AtErasing(s, w, x, act).workers[w]);
    }
  }

  lemma ReportMoves(s: Sys, w: nat, x: Worker)
    requires w < |s.workers| && x == s.workers[w] && x.Reporting?
    ensures
      var s' := Report(s, w, x.key, x.status, x.outcome);
      var x' := s'.workers[w];
      && Moves(s, s', w, x') && (x'.Failing? || x'.Arming? || x'.Forgetting?)
      && s'.sub == s.sub && s'.h.condemned == s.h.condemned
      && s'.items == Store.UpdateStatus(s.items, x.key, x.status)
  {
  }

  lemma ReportedOk(s: Sys, s': Sys, w: nat, x': Worker, status: Status)
    requires Inv(s) && Moves(s, s', w, x') && (x'.Failing? || x'.Arming? || x'.Forgetting?)
    requires s'.sub == s.sub && s'.h.condemned == s.h.condemned
    requires s'.items == Store.UpdateStatus(s.items, x'.key, status)
    ensures StepOk(s, s', w, x'.key)
  {
  }

  lemma ReportOk(s: Sys, w: nat, x: Worker, act: Act)
    requires Inv(s) && w < |s.workers| && x == s.workers[w] && x.Reporting?
    ensures StepOk(s, AtReporting(s, w, x, act), w, x.key)
  {
    if act.Fails? {
      ConcludeOk(s, w, x, x.outcome);
    } else {
      ReportMoves(s, w, x);
      var s' := Report(s, w, x.key, x.status, x.outcome);
      ReportedOk(s, s', w, s'.workers[w], x.status);
    }
  }

  lemma FinishOk(s: Sys, w: nat, act: Act)
    requires Inv(s) && CanAct(s, w, act)
    requires s.workers[w].Failing? || s.workers[w].Arming? || s.workers[w].Forgetting?
    ensures StepOk(s, Effect(s, w, act), w, s.workers[w].key)
  {
    QuietOk(s, Effect(s, w, act), w, Effect(s, w, act).workers[w]);
  }

  lemma ReleaseOk(s: Sys, w: nat, act: Act)
    requires Inv(s) && CanAct(s, w, act) && s.workers[w].Releasing?
    ensures Inv(Effect(s, w, act))
  {
    var s' := Effect(s, w, act);
    QueueRuns.DoKeepsOk(s.queue, QueueRuns.Finished(s.workers[w].key));
    SameSubstrate(s, s');
    forall v | 0 <= v < |s'.workers| && Holds(s'.workers[v]) ensures WorkerOk(s', s'.workers[v]) {
      UndisturbedWorker(s, s', s.workers[v]);
    }
  }

  lemma ActOk(s: Sys, w: nat, act: Act)
    requires Inv(s) && CanAct(s, w, act) && !s.workers[w].Releasing?
    ensures StepOk(s, Effect(s, w, act), w, s.workers[w].key)
  {
    var x := s.workers[w];
    match x
    case Held(_) => ReadOk(s, w, x, act);
    case Resolving(_, _, _, _) => ResolveOk(s, w, x, act);
    case Observing(_, _) => ObserveOk(s, w, x, act);
    case Listing(_, _) => ListOk(s, w, x, act);
    case Removing(_, _, _) => RemoveOk(s, w, x, act);
    case Making(_, _) => MakeOk(s, w, x, act);
    case Starting(_, _, _) => StartOk(s, w, x, act);
    case Reobserving(_, _) => ReobserveOk(s, w, x, act);
    case Examining(_) => ExamineOk(s, w, x, act);
    case Erasing(_) => EraseOk(s, w, x, act);
    case Reporting(_, _, _) => ReportOk(s, w, x, act);
    case _ => FinishOk(s, w, act);
  }

  lemma ActKeepsInv(s: Sys, w: nat, act: Act)
    requires Inv(s) && CanAct(s, w, act)
    ensures Inv(Effect(s, w, act))
  {
    if s.workers[w].Releasing? {
      ReleaseOk(s, w, act);
    } else {
      ActOk(s, w, act);
      StepsOnKeepsInv(s, Effect(s, w, act), w);
    }
  }

  // The other steps disturb nobody.

  /** Nobody moves, and every key is undisturbed. */
  ghost predicate Background(s: Sys, s': Sys) {
    && s'.workers == s.workers
    && NoReuse(s, s')
    && (forall k :: Undisturbed(s, s', k))
    && ObjectsOk(s') && CondemnedOk(s') && HoldersOk(s')
  }

  lemma BackgroundKeepsInv(s: Sys, s': Sys)
    requires Inv(s) && Background(s, s')
    ensures Inv(s')
  {
    forall v | 0 <= v < |s'.workers| && Holds(s'.workers[v]) ensures WorkerOk(s', s'.workers[v]) {
      UndisturbedWorker(s, s', s.workers[v]);
    }
  }

  lemma WriteOk(s: Sys, step: Step)
    requires Inv(s) && Possible(s, step) && (step.UserPut? || step.UserMark?)
    ensures Background(s, Happen(s, step))
  {
    SameSubstrate(s, Happen(s, step));
  }

  lemma DriftRemovesOk(s: Sys, id: ObjId)
    requires Inv(s) && id in s.sub.objs
    ensures Background(s, Happen(s, DriftRemoves(id)))
  {
  }

  lemma DriftStateOk(s: Sys, id: ObjId, state: Bytes)
    requires Inv(s) && id in s.sub.objs
    ensures Background(s, Happen(s, DriftState(id, state)))
  {
    SetStateOk(s, Happen(s, DriftState(id, state)), id, state);
  }

  /** Steps of timers, loop and shutdown: at most one key is enqueued. */
  lemma EnqueueOk(s: Sys, s': Sys, key: Key)
    requires Inv(s) && s'.items == s.items && s'.sub == s.sub && s'.workers == s.workers
    requires s'.h == s.h && s'.queue == Enqueue(s.queue, key) && s'.cancelled == s.cancelled
    requires s'.loop.Stopped? ==> s'.cancelled
    ensures Background(s, s')
  {
  }

  lemma FiresOk(s: Sys, key: Key)
    requires Inv(s) && key in s.timers
    ensures Background(s, Happen(s, Fires(key)))
  {
    var s' := Happen(s, Fires(key));
    assert s' == s.(timers := s.timers - multiset{key}, queue := Enqueue(s.queue, key));
    EnqueueOk(s, s', key);
  }

  lemma EnqueueNextOk(s: Sys)
    requires Inv(s) && s.loop.Enqueuing?
    ensures Background(s, Happen(s, EnqueueNext))
  {
    if s.loop.todo != [] {
      EnqueueOk(s, Happen(s, EnqueueNext), s.loop.todo[0]);
    } else {
      SameSubstrate(s, Happen(s, EnqueueNext));
    }
  }

  lemma ControlOk(s: Sys, step: Step)
    requires Inv(s) && Possible(s, step)
    requires || step.ServerNudge? || step.Tick? || step.TakeNudge? || step.Sweep? || step.SweepFails?
             || step.LoopExits? || step.Cancel? || step.CloseQueue?
    ensures Background(s, Happen(s, step))
  {
    SameSubstrate(s, Happen(s, step));
  }

  lemma BackgroundOk(s: Sys, step: Step)
    requires Inv(s) && Possible(s, step) && !step.Takes? && !step.Exits? && !step.Acts?
    ensures Background(s, Happen(s, step))
  {
    match step
    case UserPut(_, _, _) => WriteOk(s, step);
    case UserMark(_) => WriteOk(s, step);
    case DriftRemoves(id) => DriftRemovesOk(s, id);
    case DriftState(id, state) => DriftStateOk(s, id, state);
    case Fires(key) => FiresOk(s, key);
    case EnqueueNext => EnqueueNextOk(s);
    case _ => ControlOk(s, step);
  }

  lemma TakeOk(s: Sys, w: nat)
    requires Inv(s) && Possible(s, Takes(w))
    ensures Inv(Happen(s, Takes(w)))
  {
    var s' := Happen(s, Takes(w));
    assert s.queue.ready[0] in s.queue.ready;
    QueueRuns.DoKeepsOk(s.queue, QueueRuns.Got);
    SameSubstrate(s, s');
    forall v | 0 <= v < |s'.workers| && Holds(s'.workers[v]) ensures WorkerOk(s', s'.workers[v]) {
      if v != w {
        UndisturbedWorker(s, s', s.workers[v]);
      }
    }
  }

  lemma ExitOk(s: Sys, w: nat)
    requires Inv(s) && Possible(s, Exits(w))
    ensures Inv(Happen(s, Exits(w)))
  {
  }

  lemma HappenKeepsInv(s: Sys, step: Step)
    requires Inv(s) && Possible(s, step)
    ensures Inv(Happen(s, step))
  {
    match step
    case Takes(w) => TakeOk(s, w);
    case Exits(w) => ExitOk(s, w);
    case Acts(_, _) =>
    case _ =>
      BackgroundOk(s, step);
      BackgroundKeepsInv(s, Happen(s, step));
  }

  lemma StepKeepsInv(s: Sys, step: Step)
    requires Inv(s) && Enabled(s, step)
    ensures Inv(Do(s, step))
  {
    if step.Acts? {
      ActKeepsInv(s, step.w, step.act);
    } else {
      HappenKeepsInv(s, step);
    }
  }

  lemma InitialInv(s: Sys)
    requires Initial(s)
    ensures Inv(s)
  {
  }

  lemma {:induction false} RunKeepsInv(s: Sys, steps: seq<Step>)
    requires Inv(s) && LegalRun(s, steps)
    ensures Inv(Run(s, steps))
    decreases steps
  {
    if steps != [] {
      StepKeepsInv(s, steps[0]);
      RunKeepsInv(Do(s, steps[0]), steps[1..]);
    }
  }

  lemma ReachableInv(s: Sys)
    requires Reachable(s)
    ensures Inv(s)
  {
    var s0, steps :| Initial(s0) && LegalRun(s0, steps) && Run(s0, steps) == s;
    InitialInv(s0);
    RunKeepsInv(s0, steps);
  }
}
