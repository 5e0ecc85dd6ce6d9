/** What a worker's step can change, place by place: the facts the global properties
    need, without the details of the step. */
module SystemFootprint {
  import opened Model
  import Queues
  import opened Backoff
  import opened Engine
  import opened System
  import opened Ordered
  import Store

  /** Does the step from place x to place x' end the pass, and how? */
  predicate Concludes(x: Worker, x': Worker) {
    x'.Failing? || (x'.Arming? && !x'.failed) || (x'.Forgetting? && !x.Arming?)
  }

  function Ending(x': Worker): Outcome {
    if x'.Failing? then Failed else if x'.Arming? then Again else Passed
  }

  predicate StartsPass(x: Worker, act: Act) {
    x.Held? && act.Succeeds?
  }

  /** Order of the places after a pass. */
  predicate AfterPass(x: Worker, x': Worker) {
    && (x.Failing? ==> x'.Arming? && x'.failed)
    && (x.Arming? ==> if x.failed then x'.Releasing? else x'.Forgetting?)
    && (x.Forgetting? ==> x'.Releasing?)
    && (x'.Releasing? ==> x.Forgetting? || (x.Arming? && x.failed))
    && (x'.Arming? && x'.failed ==> x.Failing?)
    && !x'.Held?
  }

  /** What the step does to the substrate. */
  predicate SubMoves(sub: Substrate, sub': Substrate, x: Worker, act: Act) {
    || sub' == sub
    || (x.Removing? && x.ids != [] && !Refuses(sub, x.ids[0]) && sub' == Remove(sub, {x.ids[0]}))
    || (x.Making? && act.Makes? && sub' == Add(sub, act.id, NewObj(x.key, x.spec, act.image, act.network, act.driver)))
    || (x.Starting? && sub' == SetState(sub, x.id, RUNNING))
  }

  /** What the step does to the store. */
  ghost predicate ItemsMove(items: Items, items': Items, x: Worker)
    requires Holds(x)
  {
    && (forall k | k in items' :: k in items)
    && (forall k | k in items && k !in items' :: k == x.key && x.Erasing?)
    && (forall k | k in items && k in items' ::
          if k == x.key then items'[k].(status := items[k].status) == items[k] else items'[k] == items[k])
  }

  ghost predicate Footprint(s: Sys, s': Sys, w: nat, x: Worker, x': Worker, act: Act) {
    && w < |s.workers| && s.workers[w] == x && s'.workers == s.workers[w := x']
    && Holds(x) && Holds(x') && x'.key == x.key && AfterPass(x, x')
    && s'.queue == s.queue && s'.owed == s.owed && s'.nudge == s.nudge && s'.loop == s.loop
    && s'.cancelled == s.cancelled && s'.h.written == s.h.written && s'.h.sweepFailed == s.h.sweepFailed
    && s'.timers == (if x.Arming? then s.timers + multiset{x.key} else s.timers)
    && s'.h.seen == (if StartsPass(x, act) && x.key in s.items then s.h.seen[x.key := Count(s.h.written, x.key)] else s.h.seen)
    && s'.fails == (if x.Failing? then Backoff.Failed(s.fails, x.key)
                    else if x.Forgetting? then Forgotten(s.fails, x.key) else s.fails)
    && s'.h.log == (if Concludes(x, x') then s.h.log[x.key := Log(s.h, x.key) + [Ending(x')]] else s.h.log)
    && s'.h.retry == (if StartsPass(x, act) then s.h.retry - {x.key} else s.h.retry)
                     + (if Concludes(x, x') && !x'.Forgetting? then {x.key} else {})
    && ItemsMove(s.items, s'.items, x)
    && SubMoves(s.sub, s'.sub, x, act)
    && (forall id | id in s'.sub.objs && id !in s.sub.objs :: x.Making? && s'.sub.objs[id].key == x.key)
    && (forall id | id in s'.sub.objs && id in s.sub.objs :: s'.sub.objs[id].key == s.sub.objs[id].key)
    && (forall k | k in s.h.condemned && k !in s'.h.condemned :: k == x.key && x.Erasing?)
    && (x'.Examining? || x'.Erasing? ==> x.Examining? || (StartsPass(x, act) && x.key in s.items))
  }

  ghost predicate HasFootprint(s: Sys, s': Sys, w: nat, act: Act) {
    && w < |s.workers| && |s'.workers| == |s.workers|
    && Footprint(s, s', w, s.workers[w], s'.workers[w], act)
  }

  /** A step that ends the pass, having changed the store as it may. */
  lemma ConcludeFootprint(s: Sys, w: nat, x: Worker, outcome: Outcome, act: Act,
                          items: Items, firstReady: seq<Key>, condemned: set<Key>)
    requires w < |s.workers| && s.workers[w] == x && Holds(x)
    requires !StartsPass(x, act) && !x.Arming? && !x.Failing? && !x.Forgetting?
    requires ItemsMove(s.items, items, x)
    requires forall k | k in s.h.condemned && k !in condemned :: k == x.key && x.Erasing?
    ensures
      var changed := s.(items := items, h := s.h.(firstReady := firstReady, condemned := condemned));
      HasFootprint(s, Conclude(changed, w, x.key, outcome), w, act)
  {
    var s' := Conclude(s.(items := items, h := s.h.(firstReady := firstReady, condemned := condemned)), w, x.key, outcome);
    var x' := s'.workers[w];
    assert Concludes(x, x') && Ending(x') == outcome;
    assert s' == s.(items := items, workers := s.workers[w := x'], h := s'.h);
  }

  lemma PlainConcludeFootprint(s: Sys, w: nat, x: Worker, outcome: Outcome, act: Act)
    requires w < |s.workers| && s.workers[w] == x && Holds(x)
    requires !StartsPass(x, act) && !x.Arming? && !x.Failing? && !x.Forgetting?
    ensures HasFootprint(s, Conclude(s, w, x.key, outcome), w, act)
  {
    ConcludeFootprint(s, w, x, outcome, act, s.items, s.h.firstReady, s.h.condemned);
    assert s == s.(items := s.items, h := s.h.(firstReady := s.h.firstReady, condemned := s.h.condemned));
  }

  lemma ReadMarkedFootprint(s: Sys, w: nat, x: Worker, act: Act, todo: seq<Named>)
    requires w < |s.workers| && x == s.workers[w] && StartsPass(x, act) && x.key in s.items && s.items[x.key].marked
    ensures HasFootprint(s, Read(s, w, x.key, todo), w, act)
  {
  }

  lemma ReadUnmarkedFootprint(s: Sys, w: nat, x: Worker, act: Act, todo: seq<Named>)
    requires w < |s.workers| && x == s.workers[w] && StartsPass(x, act) && x.key in s.items && !s.items[x.key].marked
    ensures HasFootprint(s, Read(s, w, x.key, todo), w, act)
  {
  }

  lemma ReadGoneFootprint(s: Sys, w: nat, x: Worker, act: Act, todo: seq<Named>)
    requires w < |s.workers| && x == s.workers[w] && StartsPass(x, act) && x.key !in s.items
    ensures HasFootprint(s, Read(s, w, x.key, todo), w, act)
  {
  }

  lemma HeldFootprint(s: Sys, w: nat, x: Worker, act: Act)
    requires w < |s.workers| && x == s.workers[w] && x.Held? && (act.Succeeds? || act.Fails?)
    ensures HasFootprint(s, AtHeld(s, w, x, act), w, act)
  {
    if act.Fails? {
      PlainConcludeFootprint(s, w, x, Failed, act);
    } else if x.key in s.items {
      var todo := InNameOrder(s.items[x.key].references);
      if s.items[x.key].marked {
        ReadMarkedFootprint(s, w, x, act, todo);
      } else {
        ReadUnmarkedFootprint(s, w, x, act, todo);
      }
    } else {
      ReadGoneFootprint(s, w, x, act, []);
    }
  }

  /** After resolving, observing, listing or examining only the place changes. */
  ghost predicate OnlyMoves(s: Sys, s': Sys, w: nat, x: Worker) {
    && w < |s.workers| && |s'.workers| == |s.workers| && Holds(x) && Holds(s'.workers[w]) && s'.workers[w].key == x.key
    && s' == Move(s, w, s'.workers[w])
    && var x' := s'.workers[w];
       && !x'.Held? && !x'.Failing? && !x'.Arming? && !x'.Forgetting? && !x'.Releasing?
       && (x'.Examining? || x'.Erasing? ==> x.Examining?)
  }

  lemma OnlyMovesFootprint(s: Sys, s': Sys, w: nat, x: Worker, act: Act)
    requires OnlyMoves(s, s', w, x) && s.workers[w] == x && Holds(x)
    requires !x.Held? && !x.Failing? && !x.Arming? && !x.Forgetting?
    ensures HasFootprint(s, s', w, act)
  {
  }

  lemma BeginMovesOnly(s: Sys, w: nat, x: Worker, resolved: Option<Bytes>)
    requires w < |s.workers| && x == s.workers[w] && x.Resolving?
    ensures OnlyMoves(s, BeginConverge(s, w, x.key, resolved), w, x)
  {
  }

  lemma ResolveMovesOnly(s: Sys, w: nat, x: Worker)
    requires w < |s.workers| && x == s.workers[w] && x.Resolving?
    ensures OnlyMoves(s, ResolveNext(s, w, x.key, x.snapshot, x.todo, x.values), w, x)
  {
    if x.todo == [] {
      BeginMovesOnly(s, w, x, Resolved(x.snapshot, x.values));
    }
  }

  lemma ResolvingFootprint(s: Sys, w: nat, x: Worker, act: Act)
    requires w < |s.workers| && x == s.workers[w] && x.Resolving?
    ensures HasFootprint(s, AtResolving(s, w, x, act), w, act)
  {
    ResolveMovesOnly(s, w, x);
    OnlyMovesFootprint(s, AtResolving(s, w, x, act), w, x, act);
  }

  lemma ObservedMovesOnly(s: Sys, w: nat, x: Worker, obs: Observation)
    requires w < |s.workers| && x == s.workers[w] && x.Observing?
    ensures OnlyMoves(s, Observed(s, w, x.key, x.spec, obs), w, x)
  {
  }

  lemma ObservingFootprint(s: Sys, w: nat, x: Worker, act: Act)
    requires CanAct(s, w, act) && x == s.workers[w] && x.Observing?
    ensures HasFootprint(s, AtObserving(s, w, x, act), w, act)
  {
    ObservedMovesOnly(s, w, x, Answer(s, x.spec, act));
    OnlyMovesFootprint(s, AtObserving(s, w, x, act), w, x, act);
  }

  lemma ListingFootprint(s: Sys, w: nat, x: Worker, act: Act)
    requires CanAct(s, w, act) && x == s.workers[w] && x.Listing?
    ensures HasFootprint(s, AtListing(s, w, x, act), w, act)
  {
  }

  lemma ReobservingFootprint(s: Sys, w: nat, x: Worker, act: Act)
    requires CanAct(s, w, act) && x == s.workers[w] && x.Reobserving?
    ensures HasFootprint(s, AtReobserving(s, w, x, act), w, act)
  {
  }

  lemma ExaminingFootprint(s: Sys, w: nat, x: Worker, act: Act)
    requires w < |s.workers| && x == s.workers[w] && x.Examining?
    ensures HasFootprint(s, AtExamining(s, w, x, act), w, act)
  {
    OnlyMovesFootprint(s, AtExamining(s, w, x, act), w, x, act);
  }

  lemma RemoveFirstFootprint(s: Sys, w: nat, x: Worker, x': Worker, act: Act)
    requires w < |s.workers| && x == s.workers[w] && x.Removing? && x.ids != [] && x' == x.(ids := x.ids[1..])
    requires !Refuses(s.sub, x.ids[0])
    ensures HasFootprint(s, Move(s, w, x').(sub := Remove(s.sub, {x.ids[0]})), w, act)
  {
  }

  /** The loop stops, or goes on without its first entry. */
  ghost predicate MovesOrRemoves(s: Sys, s': Sys, w: nat, x: Worker)
    requires x.Removing? && w < |s.workers|
  {
    || OnlyMoves(s, s', w, x)
    || (x.ids != [] && !Refuses(s.sub, x.ids[0])
        && s' == Move(s, w, x.(ids := x.ids[1..])).(sub := Remove(s.sub, {x.ids[0]})))
  }

  lemma RemoveNextMoves(s: Sys, w: nat, x: Worker)
    requires w < |s.workers| && x == s.workers[w] && x.Removing? && x.ids != []
    ensures MovesOrRemoves(s, RemoveNext(s, w, x.key, x.update, x.ids), w, x)
  {
  }

  lemma RemovingMoves(s: Sys, w: nat, x: Worker, act: Act)
    requires w < |s.workers| && x == s.workers[w] && x.Removing?
    ensures MovesOrRemoves(s, AtRemoving(s, w, x, act), w, x)
  {
    if !act.Fails? && x.ids != [] {
      RemoveNextMoves(s, w, x);
    }
  }

  lemma RemovingFootprint(s: Sys, w: nat, x: Worker, act: Act)
    requires w < |s.workers| && x == s.workers[w] && x.Removing?
    ensures HasFootprint(s, AtRemoving(s, w, x, act), w, act)
  {
    var s' := AtRemoving(s, w, x, act);
    RemovingMoves(s, w, x, act);
    if OnlyMoves(s, s', w, x) {
      OnlyMovesFootprint(s, s', w, x, act);
    } else {
      RemoveFirstFootprint(s, w, x, x.(ids := x.ids[1..]), act);
    }
  }

  lemma MakingFootprint(s: Sys, w: nat, x: Worker, act: Act)
    requires CanAct(s, w, act) && x == s.workers[w] && x.Making?
    requires act.Makes? ==> act.id !in s.sub.objs
    ensures HasFootprint(s, AtMaking(s, w, x, act), w, act)
  {
  }

  lemma StartingFootprint(s: Sys, w: nat, x: Worker, act: Act)
    requires CanAct(s, w, act) && x == s.workers[w] && x.Starting?
    ensures HasFootprint(s, AtStarting(s, w, x, act), w, act)
  {
  }

  lemma ErasingFootprint(s: Sys, w: nat, x: Worker, act: Act)
    requires w < |s.workers| && x == s.workers[w] && x.Erasing?
    ensures HasFootprint(s, AtErasing(s, w, x, act), w, act)
  {
    if act.Fails? {
      PlainConcludeFootprint(s, w, x, Failed, act);
    } else {
      ConcludeFootprint(s, w, x, Passed, act, Store.Delete(s.items, x.key), s.h.firstReady, s.h.condemned - {x.key});
    }
  }

  lemma ReportingFootprint(s: Sys, w: nat, x: Worker, act: Act)
    requires w < |s.workers| && x == s.workers[w] && x.Reporting?
    ensures HasFootprint(s, AtReporting(s, w, x, act), w, act)
  {
    if act.Fails? {
      PlainConcludeFootprint(s, w, x, x.outcome, act);
    } else {
      var first := x.status.ready && x.key in s.items && x.key !in s.h.firstReady;
      ConcludeFootprint(s, w, x, x.outcome, act, Store.UpdateStatus(s.items, x.key, x.status),
                        if first then s.h.firstReady + [x.key] else s.h.firstReady, s.h.condemned);
    }
  }

  lemma CountFootprint(s: Sys, w: nat, x: Worker, act: Act)
    requires CanAct(s, w, act) && x == s.workers[w] && (x.Failing? || x.Forgetting?)
    ensures HasFootprint(s, Effect(s, w, act), w, act)
  {
    var s' := Effect(s, w, act);
    assert s' == s.(workers := s.workers[w := s'.workers[w]], fails := s'.fails);
  }

  lemma ArmingFootprint(s: Sys, w: nat, x: Worker, act: Act)
    requires w < |s.workers| && x == s.workers[w] && x.Arming?
    ensures HasFootprint(s, AtArming(s, w, x), w, act)
  {
    var s' := AtArming(s, w, x);
    assert s' == s.(workers := s.workers[w := s'.workers[w]], timers := s'.timers);
  }

  lemma ActFootprint(s: Sys, w: nat, act: Act)
    requires CanAct(s, w, act) && !s.workers[w].Releasing?
    requires forall id | id in s.sub.objs :: id in s.sub.issued
    ensures HasFootprint(s, Effect(s, w, act), w, act)
  {
    var x := s.workers[w];
    match x
    case Held(_) => HeldFootprint(s, w, x, act);
    case Resolving(_, _, _, _) => ResolvingFootprint(s, w, x, act);
    case Observing(_, _) => ObservingFootprint(s, w, x, act);
    case Listing(_, _) => ListingFootprint(s, w, x, act);
    case Removing(_, _, _) => RemovingFootprint(s, w, x, act);
    case Making(_, _) => MakingFootprint(s, w, x, act);
    case Starting(_, _, _) => StartingFootprint(s, w, x, act);
    case Reobserving(_, _) => ReobservingFootprint(s, w, x, act);
    case Examining(_) => ExaminingFootprint(s, w, x, act);
    case Erasing(_) => ErasingFootprint(s, w, x, act);
    case Reporting(_, _, _) => ReportingFootprint(s, w, x, act);
    case Arming(_, _) => ArmingFootprint(s, w, x, act);
    case _ => CountFootprint(s, w, x, act);
  }

  // What the other steps change.

  /** Beside the workers, nothing but drift changes the substrate. */
  lemma HappenSub(s: Sys, step: Step)
    requires Possible(s, step)
    ensures Happen(s, step).sub == (match step
              case DriftRemoves(id) => Remove(s.sub, {id})
              case DriftState(id, state) => SetState(s.sub, id, state)
              case _ => s.sub)
  {
  }

  /** A timer that fires, or the sweep's next key, changes the queue only. */
  lemma EnqueueFootprint(s: Sys, step: Step)
    requires Possible(s, step) && (step.Fires? || step.EnqueueNext?)
    ensures
      var s' := Happen(s, step);
      && s' == s.(loop := s'.loop, timers := s'.timers, queue := s'.queue)
      && s'.queue.processing == s.queue.processing
  {
    var s' := Happen(s, step);
    if step.Fires? {
      assert s' == s.(timers := s'.timers, queue := Queues.Enqueue(s.queue, step.key));
    } else {
      assert s' == s.(loop := s'.loop, queue := s'.queue);
    }
  }

  lemma HappenWorkers(s: Sys, step: Step)
    requires Possible(s, step)
    ensures Happen(s, step).workers == (match step
              case Takes(w) => s.workers[w := Held(s.queue.ready[0])]
              case Exits(w) => s.workers[w := Exited]
              case _ => s.workers)
  {
  }

  lemma HappenHistory(s: Sys, step: Step)
    requires Possible(s, step)
    ensures Happen(s, step).h == (match step
              case UserPut(key, _, _) => s.h.(written := Bump(s.h.written, key))
              case UserMark(key) => s.h.(written := Bump(s.h.written, key))
              case Sweep(_) => s.h.(sweepFailed := false)
              case SweepFails => s.h.(sweepFailed := true)
              case _ => s.h)
  {
  }
}
