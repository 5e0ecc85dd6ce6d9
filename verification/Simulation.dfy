/** The small-step system and the whole pass agree: a worker that runs with nothing
    else interleaved ends its pass exactly where Pass says. */
module Simulation {
  import opened Model
  import opened Engine
  import opened System
  import opened Ordered
  import opened Passes
  import opened PassFrame
  import opened SystemInvariant

  function WorldOf(s: Sys): World {
    World(s.items, s.sub)
  }

  /** The removal loop over the objects still listed. */
  function RemoveListed(sub: Substrate, key: Key, ids: seq<ObjId>, env: Env): CallResult
    decreases |ids|
  {
    if ids == [] then CallResult.Done(sub, true)
    else if RemoveCall(ids[0]) in env.faults then CallResult.Done(sub, false)
    else if ids[0] !in sub.objs then
      if key.kind == NETWORK then RemoveListed(sub, key, ids[1..], env) else CallResult.Done(sub, false)
    else if Refuses(sub, ids[0]) then CallResult.Done(sub, false)
    else RemoveListed(Remove(sub, {ids[0]}), key, ids[1..], env)
  }

  /** What follows a removal that is the first half of an Update, or a Delete. */
  ghost function AfterRemoval(w: World, key: Key, update: Option<Bytes>, removed: CallResult, env: Env): PassResult {
    match update
    case None => AfterDelete(w, key, removed, env)
    case Some(spec) =>
      Record(w, key, Settle(if removed.ok then CreateObject(removed.sub, key, spec, env) else removed, key, spec, env), env)
  }

  /** How the pass ends from the place a worker is at. */
  ghost function Finish(w: World, x: Worker, env: Env): PassResult {
    match x
    case Held(key) => Pass(w, key, env)
    case Resolving(key, snapshot, todo, values) => AfterResolve(w, key, snapshot, Resolve(w.items, todo, values, env), env)
    case Observing(key, spec) => Record(w, key, Converge(w.sub, key, spec, env), env)
    case Listing(key, update) => AfterRemoval(w, key, update, DeleteObject(w.sub, key, env), env)
    case Removing(key, update, ids) => AfterRemoval(w, key, update, RemoveListed(w.sub, key, ids, env), env)
    case Making(key, spec) => Record(w, key, Settle(CreateObject(w.sub, key, spec, env), key, spec, env), env)
    case Starting(key, spec, id) =>
      var started := if StartCall in env.faults then CallResult.Done(w.sub, false)
                     else CallResult.Done(SetState(w.sub, id, RUNNING), true);
      Record(w, key, Settle(started, key, spec, env), env)
    case Reobserving(key, spec) => Record(w, key, Settle(CallResult.Done(w.sub, true), key, spec, env), env)
    case Examining(key) => DeletionPass(w, key, env)
    case Erasing(key) => ErasePass(w, key, env)
    case Reporting(key, status, outcome) => Record(w, key, Converged(w.sub, status, outcome), env)
    case Failing(_) => PassResult(w, Outcome.Failed)
    case Arming(_, failed) => PassResult(w, if failed then Outcome.Failed else Again)
    case _ => PassResult(w, Passed)
  }

  /** The pass is over and its outcome chosen. */
  predicate Ended(x: Worker) {
    x.Failing? || x.Arming? || x.Forgetting?
  }

  predicate Running(x: Worker) {
    Holds(x) && !Ended(x) && !x.Releasing?
  }

  /** Does the environment fail the operation a worker is at? */
  predicate Faulted(s: Sys, x: Worker, env: Env) {
    match x
    case Held(_) => GetCall in env.faults
    case Resolving(_, _, todo, _) => todo != [] && ResolveCall(todo[0].name) in env.faults
    case Observing(_, _) => ObserveCall in env.faults
    case Listing(_, _) => ListCall in env.faults
    case Removing(_, _, ids) => ids != [] && RemoveCall(ids[0]) in env.faults
    case Making(_, _) => CreateCall in env.faults || !Fresh(s.sub, env.id)
    case Starting(_, _, _) => StartCall in env.faults
    case Reobserving(_, _) => ReobserveCall in env.faults
    case Examining(_) => ObserveCall in env.faults
    case Erasing(_) => EraseCall in env.faults
    case Reporting(_, _, _) => StatusCall in env.faults
    case _ => false
  }

  /** The answer is the one this environment gives. */
  predicate Agrees(s: Sys, x: Worker, act: Act, env: Env) {
    && (act.Fails? <==> Faulted(s, x, env))
    && (act.Makes? ==> act == Makes(env.id, env.image, env.network, env.driver))
  }

  /** One operation leaves the end of the pass where it was. */
  ghost predicate Simulates(s: Sys, s': Sys, w: nat, x: Worker, env: Env) {
    && w < |s'.workers| && Finish(WorldOf(s'), s'.workers[w], env) == Finish(WorldOf(s), x, env)
  }

  lemma ConcludeSimulates(s: Sys, w: nat, key: Key, outcome: Outcome, env: Env)
    requires w < |s.workers|
    ensures
      var s' := Conclude(s, w, key, outcome);
      Finish(WorldOf(s'), s'.workers[w], env) == PassResult(WorldOf(s), outcome)
  {
  }

  /** Finish looks at the world and the worker's place only. */
  lemma MovedFinishes(s: Sys, s': Sys, w: nat, x': Worker, env: Env)
    requires w < |s'.workers| && s'.workers[w] == x' && s'.items == s.items && s'.sub == s.sub
    ensures Finish(WorldOf(s'), s'.workers[w], env) == Finish(WorldOf(s), x', env)
  {
  }

  lemma ReadMarkedSimulates(s: Sys, w: nat, key: Key, todo: seq<Named>, env: Env)
    requires w < |s.workers| && key in s.items && s.items[key].marked
    ensures
      var s' := Read(s, w, key, todo);
      Finish(WorldOf(s'), s'.workers[w], env) == DeletionPass(WorldOf(s), key, env)
  {
  }

  lemma ReadUnmarkedSimulates(s: Sys, w: nat, key: Key, env: Env)
    requires w < |s.workers| && key in s.items && !s.items[key].marked
    ensures
      var s' := Read(s, w, key, InNameOrder(s.items[key].references));
      Finish(WorldOf(s'), s'.workers[w], env) == ConvergePass(WorldOf(s), key, env)
  {
  }

  lemma HeldSimulates(s: Sys, w: nat, x: Worker, act: Act, env: Env)
    requires CanAct(s, w, act) && x == s.workers[w] && x.Held? && Agrees(s, x, act, env)
    ensures Simulates(s, AtHeld(s, w, x, act), w, x, env)
  {
    if act.Fails? {
      ConcludeSimulates(s, w, x.key, Outcome.Failed, env);
    } else if x.key in s.items {
      if s.items[x.key].marked {
        ReadMarkedSimulates(s, w, x.key, InNameOrder(s.items[x.key].references), env);
      } else {
        ReadUnmarkedSimulates(s, w, x.key, env);
      }
    } else {
      GoneSimulates(s, w, x.key, env);
    }
  }

  lemma GoneSimulates(s: Sys, w: nat, key: Key, env: Env)
    requires w < |s.workers| && GetCall !in env.faults && key !in s.items
    ensures
      var s' := Read(s, w, key, []);
      Finish(WorldOf(s'), s'.workers[w], env) == Pass(WorldOf(s), key, env)
  {
  }

  lemma NextReferenceSimulates(s: Sys, w: nat, x: Worker, env: Env)
    requires w < |s.workers| && x == s.workers[w] && x.Resolving? && x.todo != [] && !Faulted(s, x, env)
    ensures Simulates(s, ResolveNext(s, w, x.key, x.snapshot, x.todo, x.values), w, x, env)
  {
  }

  lemma ResolvingSimulates(s: Sys, w: nat, x: Worker, act: Act, env: Env)
    requires CanAct(s, w, act) && x == s.workers[w] && x.Resolving? && Agrees(s, x, act, env)
    ensures Simulates(s, AtResolving(s, w, x, act), w, x, env)
  {
    if act.Fails? {
      MovedFinishes(s, AtResolving(s, w, x, act), w, Reporting(x.key, ERROR, Outcome.Failed), env);
    } else if x.todo == [] {
      BeginSimulates(s, w, x, Resolved(x.snapshot, x.values), env);
    } else {
      NextReferenceSimulates(s, w, x, env);
    }
  }

  lemma BeginSimulates(s: Sys, w: nat, x: Worker, resolved: Option<Bytes>, env: Env)
    requires w < |s.workers| && x == s.workers[w] && x.Resolving?
    ensures
      var s' := BeginConverge(s, w, x.key, resolved);
      Finish(WorldOf(s'), s'.workers[w], env) ==
      match resolved
      case None => Record(WorldOf(s), x.key, Converged(s.sub, ERROR, Outcome.Failed), env)
      case Some(spec) => Record(WorldOf(s), x.key, Converge(s.sub, x.key, spec, env), env)
  {
  }

  lemma AnswerIsObserve(s: Sys, key: Key, spec: Bytes, act: Act)
    requires Single(s.sub) && (if act.Finds? then act.id in Owned(s.sub, key) else Owned(s.sub, key) == {})
    ensures Answer(s, spec, act) == Observe(s.sub, key, spec)
  {
  }

  function PlaceAfter(key: Key, spec: Bytes, obs: Observation): Worker {
    if !obs.exists_ then Making(key, spec)
    else if !obs.upToDate then Listing(key, Some(spec))
    else Reporting(key, StatusOf(obs), Passed)
  }

  lemma ConvergeFromPlace(w: World, key: Key, spec: Bytes, env: Env)
    requires Managed(key) && ObserveCall !in env.faults
    ensures Finish(w, PlaceAfter(key, spec, Observe(w.sub, key, spec)), env) == Record(w, key, Converge(w.sub, key, spec, env), env)
  {
  }

  lemma ObservedSimulates(s: Sys, w: nat, key: Key, spec: Bytes, env: Env)
    requires w < |s.workers| && Managed(key) && ObserveCall !in env.faults
    ensures
      var s' := Observed(s, w, key, spec, Observe(s.sub, key, spec));
      Finish(WorldOf(s'), s'.workers[w], env) == Record(WorldOf(s), key, Converge(s.sub, key, spec, env), env)
  {
    var obs := Observe(s.sub, key, spec);
    ObservedMoves(s, w, key, spec, obs);
    MovedFinishes(s, Observed(s, w, key, spec, obs), w, PlaceAfter(key, spec, obs), env);
    ConvergeFromPlace(WorldOf(s), key, spec, env);
  }

  lemma ObservedMoves(s: Sys, w: nat, key: Key, spec: Bytes, obs: Observation)
    requires w < |s.workers|
    ensures Observed(s, w, key, spec, obs) == Move(s, w, PlaceAfter(key, spec, obs))
  {
  }

  lemma ObservingSimulates(s: Sys, w: nat, x: Worker, act: Act, env: Env)
    requires CanAct(s, w, act) && x == s.workers[w] && x.Observing? && Agrees(s, x, act, env)
    requires Single(s.sub) && Managed(x.key)
    ensures Simulates(s, AtObserving(s, w, x, act), w, x, env)
  {
    if !act.Fails? {
      AnswerIsObserve(s, x.key, x.spec, act);
      ObservedSimulates(s, w, x.key, x.spec, env);
    }
  }

  lemma {:induction false} ListedIsOwned(sub: Substrate, key: Key, ids: seq<ObjId>, env: Env)
    requires Single(sub) && Listed(ids, Owned(sub, key)) && ListCall !in env.faults
    ensures RemoveListed(sub, key, ids, env) == DeleteObject(sub, key, env)
  {
    if ids == [] {
      assert Owned(sub, key) == {};
    } else {
      assert ids[0] in Owned(sub, key);
      SingleOwned(sub, key, ids[0]);
      assert forall i | 0 <= i < |ids| :: ids[i] in Owned(sub, key);
      assert RemoveListed(Remove(sub, {ids[0]}), key, ids[1..], env) == CallResult.Done(Remove(sub, {ids[0]}), true);
    }
  }

  lemma ListingSimulates(s: Sys, w: nat, x: Worker, act: Act, env: Env)
    requires CanAct(s, w, act) && x == s.workers[w] && x.Listing? && Agrees(s, x, act, env)
    requires Single(s.sub)
    ensures Simulates(s, AtListing(s, w, x, act), w, x, env)
  {
    if act.Lists? {
      ListedIsOwned(s.sub, x.key, act.ids, env);
    }
  }

  lemma RemovalFailsSimulates(s: Sys, w: nat, key: Key, update: Option<Bytes>, env: Env)
    requires w < |s.workers|
    ensures
      var s' := RemovalFails(s, w, key, update);
      Finish(WorldOf(s'), s'.workers[w], env) == AfterRemoval(WorldOf(s), key, update, CallResult.Done(s.sub, false), env)
  {
  }

  lemma NoneLeftSimulates(s: Sys, w: nat, key: Key, update: Option<Bytes>, env: Env)
    requires w < |s.workers|
    ensures
      var s' := NoneLeft(s, w, key, update);
      Finish(WorldOf(s'), s'.workers[w], env) == AfterRemoval(WorldOf(s), key, update, CallResult.Done(s.sub, true), env)
  {
  }

  lemma RemoveNextSimulates(s: Sys, w: nat, x: Worker, env: Env)
    requires w < |s.workers| && x == s.workers[w] && x.Removing? && x.ids != [] && RemoveCall(x.ids[0]) !in env.faults
    ensures Simulates(s, RemoveNext(s, w, x.key, x.update, x.ids), w, x, env)
  {
    if x.ids[0] !in s.sub.objs {
      if x.key.kind != NETWORK {
        RemovalFailsSimulates(s, w, x.key, x.update, env);
      }
    } else if Refuses(s.sub, x.ids[0]) {
      RemovalFailsSimulates(s, w, x.key, x.update, env);
    } else {
      RemovedSimulates(s, w, x, env);
    }
  }

  lemma RemovedSimulates(s: Sys, w: nat, x: Worker, env: Env)
    requires w < |s.workers| && x == s.workers[w] && x.Removing? && x.ids != [] && RemoveCall(x.ids[0]) !in env.faults
    requires x.ids[0] in s.sub.objs && !Refuses(s.sub, x.ids[0])
    ensures Simulates(s, Move(s, w, x.(ids := x.ids[1..])).(sub := Remove(s.sub, {x.ids[0]})), w, x, env)
  {
  }

  lemma RemovingSimulates(s: Sys, w: nat, x: Worker, act: Act, env: Env)
    requires CanAct(s, w, act) && x == s.workers[w] && x.Removing? && Agrees(s, x, act, env)
    ensures Simulates(s, AtRemoving(s, w, x, act), w, x, env)
  {
    if act.Fails? {
      RemovalFailsSimulates(s, w, x.key, x.update, env);
    } else if x.ids == [] {
      NoneLeftSimulates(s, w, x.key, x.update, env);
    } else {
      RemoveNextSimulates(s, w, x, env);
    }
  }

  lemma MakingSimulates(s: Sys, w: nat, x: Worker, act: Act, env: Env)
    requires CanAct(s, w, act) && x == s.workers[w] && x.Making? && Agrees(s, x, act, env)
    ensures Simulates(s, AtMaking(s, w, x, act), w, x, env)
  {
  }

  lemma StartingSimulates(s: Sys, w: nat, x: Worker, act: Act, env: Env)
    requires CanAct(s, w, act) && x == s.workers[w] && x.Starting? && Agrees(s, x, act, env)
    ensures Simulates(s, AtStarting(s, w, x, act), w, x, env)
  {
  }

  lemma ReobservingSimulates(s: Sys, w: nat, x: Worker, act: Act, env: Env)
    requires CanAct(s, w, act) && x == s.workers[w] && x.Reobserving? && Agrees(s, x, act, env)
    requires Single(s.sub)
    ensures Simulates(s, AtReobserving(s, w, x, act), w, x, env)
  {
  }

  lemma DeletionSimulates(s: Sys, w: nat, x: Worker, act: Act, env: Env)
    requires CanAct(s, w, act) && x == s.workers[w] && Agrees(s, x, act, env)
    requires x.Erasing? || (x.Examining? && Managed(x.key))
    ensures Simulates(s, Effect(s, w, act), w, x, env)
  {
  }

  lemma ReportingSimulates(s: Sys, w: nat, x: Worker, act: Act, env: Env)
    requires CanAct(s, w, act) && x == s.workers[w] && x.Reporting? && Agrees(s, x, act, env)
    ensures Simulates(s, AtReporting(s, w, x, act), w, x, env)
  {
  }

  lemma ActSimulates(s: Sys, w: nat, act: Act, env: Env)
    requires Inv(s) && CanAct(s, w, act) && Running(s.workers[w]) && Agrees(s, s.workers[w], act, env)
    ensures Simulates(s, Effect(s, w, act), w, s.workers[w], env)
  {
    var x := s.workers[w];
    match x
    case Held(_) => HeldSimulates(s, w, x, act, env);
    case Resolving(_, _, _, _) => ResolvingSimulates(s, w, x, act, env);
    case Observing(_, _) => ObservingSimulates(s, w, x, act, env);
    case Listing(_, _) => ListingSimulates(s, w, x, act, env);
    case Removing(_, _, _) => RemovingSimulates(s, w, x, act, env);
    case Making(_, _) => MakingSimulates(s, w, x, act, env);
    case Starting(_, _, _) => StartingSimulates(s, w, x, act, env);
    case Reobserving(_, _) => ReobservingSimulates(s, w, x, act, env);
    case Examining(_) => DeletionSimulates(s, w, x, act, env);
    case Erasing(_) => DeletionSimulates(s, w, x, act, env);
    case Reporting(_, _, _) => ReportingSimulates(s, w, x, act, env);
  }

  /** A run of worker w alone, through operations that answer as `env` does. */
  ghost predicate Solo(s: Sys, w: nat, acts: seq<Act>, env: Env)
    decreases |acts|
  {
    acts == [] ||
    (CanAct(s, w, acts[0]) && Running(s.workers[w]) && Agrees(s, s.workers[w], acts[0], env)
     && Solo(Effect(s, w, acts[0]), w, acts[1..], env))
  }

  ghost function SoloRun(s: Sys, w: nat, acts: seq<Act>, env: Env): Sys
    requires Solo(s, w, acts, env)
    decreases |acts|
  {
    if acts == [] then s else SoloRun(Effect(s, w, acts[0]), w, acts[1..], env)
  }

  lemma {:induction false} SoloKeepsFinish(s: Sys, w: nat, acts: seq<Act>, env: Env)
    requires Inv(s) && w < |s.workers| && Solo(s, w, acts, env)
    ensures Simulates(s, SoloRun(s, w, acts, env), w, s.workers[w], env)
    decreases |acts|
  {
    if acts != [] {
      ActSimulates(s, w, acts[0], env);
      StepKeepsInv(s, Acts(w, acts[0]));
      SoloKeepsFinish(Effect(s, w, acts[0]), w, acts[1..], env);
    }
  }

  // Such a run exists for every environment.

  /** What the environment makes the operation answer. */
  ghost function Answered(s: Sys, x: Worker, env: Env): Act {
    if Faulted(s, x, env) then Fails
    else if x.Observing? || x.Reobserving? then
      if Owned(s.sub, x.key) == {} then Succeeds else Finds(Only(s.sub, x.key))
    else if x.Listing? then Lists(if Owned(s.sub, x.key) == {} then [] else [Only(s.sub, x.key)])
    else if x.Making? then Makes(env.id, env.image, env.network, env.driver)
    else Succeeds
  }

  /** A container just created is still there when it is started. */
  predicate StillThere(s: Sys, x: Worker) {
    x.Starting? ==> x.id in s.sub.objs
  }

  lemma AnsweredIsPossible(s: Sys, w: nat, env: Env)
    requires Inv(s) && w < |s.workers| && Running(s.workers[w]) && StillThere(s, s.workers[w])
    ensures CanAct(s, w, Answered(s, s.workers[w], env)) && Agrees(s, s.workers[w], Answered(s, s.workers[w], env), env)
  {
  }

  function Stage(x: Worker): nat {
    match x
    case Held(_) => 9
    case Resolving(_, _, _, _) => 8
    case Observing(_, _) => 7
    case Examining(_) => 7
    case Listing(_, _) => 6
    case Removing(_, _, _) => 5
    case Making(_, _) => 4
    case Starting(_, _, _) => 3
    case Reobserving(_, _) => 2
    case Erasing(_) => 1
    case Reporting(_, _, _) => 1
    case _ => 0
  }

  function Left(x: Worker): nat {
    if x.Resolving? then |x.todo| else if x.Removing? then |x.ids| else 0
  }

  ghost predicate Advances(s': Sys, w: nat, x: Worker) {
    && w < |s'.workers|
    && var x' := s'.workers[w];
       && (Ended(x') || Running(x')) && StillThere(s', x')
       && (Stage(x') < Stage(x) || (Stage(x') == Stage(x) && Left(x') < Left(x)))
  }

  lemma ConcludeAdvances(s: Sys, w: nat, x: Worker, outcome: Outcome)
    requires w < |s.workers| && Running(x)
    ensures Advances(Conclude(s, w, x.key, outcome), w, x)
  {
  }

  lemma ReadMarkedAdvances(s: Sys, w: nat, x: Worker, todo: seq<Named>)
    requires w < |s.workers| && x.Held? && x.key in s.items && s.items[x.key].marked
    ensures Advances(Read(s, w, x.key, todo), w, x)
  {
  }

  lemma ReadUnmarkedAdvances(s: Sys, w: nat, x: Worker, todo: seq<Named>)
    requires w < |s.workers| && x.Held? && x.key in s.items && !s.items[x.key].marked
    ensures Advances(Read(s, w, x.key, todo), w, x)
  {
  }

  lemma HeldAdvances(s: Sys, w: nat, x: Worker, act: Act)
    requires w < |s.workers| && x == s.workers[w] && x.Held?
    ensures Advances(AtHeld(s, w, x, act), w, x)
  {
    if act.Fails? {
      ConcludeAdvances(s, w, x, Outcome.Failed);
    } else if x.key !in s.items {
      ConcludeAdvances(s.(h := s.h.(retry := s.h.retry - {x.key})), w, x, Passed);
    } else if s.items[x.key].marked {
      ReadMarkedAdvances(s, w, x, InNameOrder(s.items[x.key].references));
    } else {
      ReadUnmarkedAdvances(s, w, x, InNameOrder(s.items[x.key].references));
    }
  }

  lemma NextReferenceAdvances(s: Sys, w: nat, x: Worker)
    requires w < |s.workers| && x == s.workers[w] && x.Resolving? && x.todo != []
    ensures Advances(ResolveNext(s, w, x.key, x.snapshot, x.todo, x.values), w, x)
  {
  }

  lemma ResolvingAdvances(s: Sys, w: nat, x: Worker, act: Act)
    requires w < |s.workers| && x == s.workers[w] && x.Resolving?
    ensures Advances(AtResolving(s, w, x, act), w, x)
  {
    if act.Fails? {
      MovedAdvances(AtResolving(s, w, x, act), w, x, Reporting(x.key, ERROR, Outcome.Failed));
    } else if x.todo == [] {
      BeginAdvances(s, w, x, Resolved(x.snapshot, x.values));
    } else {
      NextReferenceAdvances(s, w, x);
    }
  }

  lemma BeginAdvances(s: Sys, w: nat, x: Worker, resolved: Option<Bytes>)
    requires w < |s.workers| && x == s.workers[w] && x.Resolving?
    ensures Advances(BeginConverge(s, w, x.key, resolved), w, x)
  {
  }

  lemma MovedAdvances(s': Sys, w: nat, x: Worker, x': Worker)
    requires w < |s'.workers| && s'.workers[w] == x' && (Ended(x') || Running(x')) && StillThere(s', x') && Stage(x') < Stage(x)
    ensures Advances(s', w, x)
  {
  }

  lemma ObservingAdvances(s: Sys, w: nat, x: Worker, act: Act)
    requires CanAct(s, w, act) && x == s.workers[w] && x.Observing?
    ensures Advances(AtObserving(s, w, x, act), w, x)
  {
    if act.Fails? {
      MovedAdvances(AtObserving(s, w, x, act), w, x, Reporting(x.key, ERROR, Outcome.Failed));
    } else {
      var obs := Answer(s, x.spec, act);
      ObservedMoves(s, w, x.key, x.spec, obs);
      MovedAdvances(Observed(s, w, x.key, x.spec, obs), w, x, PlaceAfter(x.key, x.spec, obs));
    }
  }

  lemma ExaminingAdvances(s: Sys, w: nat, x: Worker, act: Act)
    requires CanAct(s, w, act) && x == s.workers[w] && x.Examining?
    ensures Advances(AtExamining(s, w, x, act), w, x)
  {
  }

  lemma ListingAdvances(s: Sys, w: nat, x: Worker, act: Act)
    requires CanAct(s, w, act) && x == s.workers[w] && x.Listing?
    ensures Advances(AtListing(s, w, x, act), w, x)
  {
  }

  lemma ReobservingAdvances(s: Sys, w: nat, x: Worker, act: Act)
    requires CanAct(s, w, act) && x == s.workers[w] && x.Reobserving?
    ensures Advances(AtReobserving(s, w, x, act), w, x)
  {
  }

  lemma RemoveNextAdvances(s: Sys, w: nat, x: Worker)
    requires w < |s.workers| && x == s.workers[w] && x.Removing? && x.ids != []
    ensures Advances(RemoveNext(s, w, x.key, x.update, x.ids), w, x)
  {
    var s' := RemoveNext(s, w, x.key, x.update, x.ids);
    var x' := s'.workers[w];
    var failed := Reporting(x.key, if x.update.Some? then ERROR else DELETING, Outcome.Failed);
    assert x' == x.(ids := x.ids[1..]) || x' == failed;
  }

  lemma RemovingAdvances(s: Sys, w: nat, x: Worker, act: Act)
    requires w < |s.workers| && x == s.workers[w] && x.Removing?
    ensures Advances(AtRemoving(s, w, x, act), w, x)
  {
    if act.Fails? {
      MovedAdvances(AtRemoving(s, w, x, act), w, x,
                    Reporting(x.key, if x.update.Some? then ERROR else DELETING, Outcome.Failed));
    } else if x.ids != [] {
      RemoveNextAdvances(s, w, x);
    }
  }

  lemma MakingAdvances(s: Sys, w: nat, x: Worker, act: Act)
    requires CanAct(s, w, act) && x == s.workers[w] && x.Making?
    ensures Advances(AtMaking(s, w, x, act), w, x)
  {
  }

  lemma StartingAdvances(s: Sys, w: nat, x: Worker, act: Act)
    requires CanAct(s, w, act) && x == s.workers[w] && x.Starting?
    ensures Advances(AtStarting(s, w, x, act), w, x)
  {
  }

  lemma ErasingAdvances(s: Sys, w: nat, x: Worker, act: Act)
    requires CanAct(s, w, act) && x == s.workers[w] && x.Erasing?
    ensures Advances(AtErasing(s, w, x, act), w, x)
  {
  }

  lemma ReportingAdvances(s: Sys, w: nat, x: Worker, act: Act)
    requires CanAct(s, w, act) && x == s.workers[w] && x.Reporting?
    ensures Advances(AtReporting(s, w, x, act), w, x)
  {
  }

  lemma ActAdvances(s: Sys, w: nat, act: Act)
    requires CanAct(s, w, act) && Running(s.workers[w])
    ensures Advances(Effect(s, w, act), w, s.workers[w])
  {
    var x := s.workers[w];
    match x
    case Held(_) => HeldAdvances(s, w, x, act);
    case Resolving(_, _, _, _) => ResolvingAdvances(s, w, x, act);
    case Observing(_, _) => ObservingAdvances(s, w, x, act);
    case Listing(_, _) => ListingAdvances(s, w, x, act);
    case Removing(_, _, _) => RemovingAdvances(s, w, x, act);
    case Making(_, _) => MakingAdvances(s, w, x, act);
    case Starting(_, _, _) => StartingAdvances(s, w, x, act);
    case Reobserving(_, _) => ReobservingAdvances(s, w, x, act);
    case Examining(_) => ExaminingAdvances(s, w, x, act);
    case Erasing(_) => ErasingAdvances(s, w, x, act);
    case Reporting(_, _, _) => ReportingAdvances(s, w, x, act);
  }

  lemma {:induction false} PassCompletes(s: Sys, w: nat, env: Env) returns (acts: seq<Act>)
    requires Inv(s) && w < |s.workers| && (Running(s.workers[w]) || Ended(s.workers[w])) && StillThere(s, s.workers[w])
    ensures Solo(s, w, acts, env)
    ensures w < |SoloRun(s, w, acts, env).workers| && Ended(SoloRun(s, w, acts, env).workers[w])
    decreases Stage(s.workers[w]), Left(s.workers[w])
  {
    if Ended(s.workers[w]) {
      acts := [];
    } else {
      var act := Answered(s, s.workers[w], env);
      AnsweredIsPossible(s, w, env);
      ActAdvances(s, w, act);
      StepKeepsInv(s, Acts(w, act));
      var rest := PassCompletes(Effect(s, w, act), w, env);
      acts := [act] + rest;
    }
  }

  /** For every environment, a worker that takes a key up and runs alone ends its pass
      with the store, the substrate and the outcome that Pass computes. */
  lemma SystemRunsPass(s: Sys, w: nat, env: Env) returns (acts: seq<Act>)
    requires Inv(s) && w < |s.workers| && s.workers[w].Held?
    ensures Solo(s, w, acts, env)
    ensures
      var s' := SoloRun(s, w, acts, env);
      && w < |s'.workers| && Ended(s'.workers[w])
      && Finish(WorldOf(s'), s'.workers[w], env) == Pass(WorldOf(s), s.workers[w].key, env)
      && WorldOf(s') == Pass(WorldOf(s), s.workers[w].key, env).world
  {
    acts := PassCompletes(s, w, env);
    SoloKeepsFinish(s, w, acts, env);
    EndedFinishes(SoloRun(s, w, acts, env), w, env);
  }

  lemma EndedFinishes(s: Sys, w: nat, env: Env)
    requires w < |s.workers| && Ended(s.workers[w])
    ensures Finish(WorldOf(s), s.workers[w], env).world == WorldOf(s)
  {
  }
}
