/** Emergent ordering (docs/adr/0005, 0012): with references fixed from first Put,
    readiness respects them, and nothing on or behind a cycle is ever created. */
module Ordering {
  import opened Model
  import opened Queues
  import opened Engine
  import opened System
  import opened SystemInvariant
  import opened SystemFootprint
  import opened Ordered
  import Store

  /** The fixed reference block of each key. */
  type References = Key -> map<Bytes, Reference>

  /** Every Put of the run carries the key's fixed references. */
  ghost predicate FixedReferences(R: References, steps: seq<Step>) {
    forall step | step in steps && step.UserPut? :: step.references == R(step.key)
  }

  ghost predicate HasTarget(R: References, key: Key, target: Key) {
    exists name :: name in R(key) && R(key)[name].target == target
  }

  /** Every target of `key` has been Ready. */
  ghost predicate AllReady(R: References, ready: seq<Key>, key: Key) {
    forall name | name in R(key) :: R(key)[name].target in ready
  }

  /** What the worker's place says about the targets of its key. */
  ghost predicate PlaceOk(R: References, ready: seq<Key>, x: Worker) {
    && (x.Resolving? ==>
          && x.snapshot.references == R(x.key)
          && forall name | name in R(x.key) :: Named(name, R(x.key)[name]) in x.todo || R(x.key)[name].target in ready)
    && ((Converging(x) && !x.Resolving?) || (x.Reporting? && x.status.ready) ==> AllReady(R, ready, x.key))
  }

  /** The keys in the order of their first Ready: each after all its targets. */
  ghost predicate InOrder(R: References, ready: seq<Key>) {
    && Distinct(ready)
    && forall i | 0 <= i < |ready| :: AllReady(R, ready[..i], ready[i])
  }

  ghost predicate OrderInv(R: References, s: Sys) {
    && (forall key | key in s.items ::
          s.items[key].references == R(key) && (s.items[key].status.ready ==> key in s.h.firstReady))
    && (forall w | 0 <= w < |s.workers| && Holds(s.workers[w]) :: PlaceOk(R, s.h.firstReady, s.workers[w]))
    && InOrder(R, s.h.firstReady)
    && (forall key | key in s.h.created :: AllReady(R, s.h.firstReady, key))
    && (forall id | id in s.sub.objs :: s.sub.objs[id].key in s.h.created)
  }

  /** What a step may do to the history of readiness and creation. */
  ghost predicate Grows(s: Sys, s': Sys) {
    s.h.firstReady <= s'.h.firstReady
  }

  lemma PlaceGrows(R: References, ready: seq<Key>, ready': seq<Key>, x: Worker)
    requires PlaceOk(R, ready, x) && ready <= ready'
    ensures PlaceOk(R, ready', x)
  {
  }

  lemma AppendReady(R: References, ready: seq<Key>, key: Key)
    requires InOrder(R, ready) && AllReady(R, ready, key) && key !in ready
    ensures InOrder(R, ready + [key])
  {
    var ready' := ready + [key];
    forall i | 0 <= i < |ready'| ensures AllReady(R, ready'[..i], ready'[i]) {
      assert ready'[..i] == ready[..i];
    }
  }

  // Resolution and reporting.

  lemma ResolvedPlace(R: References, s: Sys, w: nat, x: Worker, act: Act)
    requires OrderInv(R, s) && w < |s.workers| && x == s.workers[w] && x.Resolving?
    ensures PlaceOk(R, s.h.firstReady, AtResolving(s, w, x, act).workers[w])
  {
    assert PlaceOk(R, s.h.firstReady, x);
    if !act.Fails? && x.todo == [] {
      assert AllReady(R, s.h.firstReady, x.key);
      BegunPlace(R, s, w, x, Resolved(x.snapshot, x.values));
    } else if !act.Fails? {
      assert x.todo == [x.todo[0]] + x.todo[1..];
      NextPlace(R, s, w, x);
    }
  }

  lemma BegunPlace(R: References, s: Sys, w: nat, x: Worker, resolved: Option<Bytes>)
    requires w < |s.workers| && x == s.workers[w] && x.Resolving? && AllReady(R, s.h.firstReady, x.key)
    ensures PlaceOk(R, s.h.firstReady, BeginConverge(s, w, x.key, resolved).workers[w])
  {
  }

  lemma NextPlace(R: References, s: Sys, w: nat, x: Worker)
    requires OrderInv(R, s) && w < |s.workers| && x == s.workers[w] && x.Resolving? && x.todo != []
    requires PlaceOk(R, s.h.firstReady, x) && x.todo == [x.todo[0]] + x.todo[1..]
    ensures PlaceOk(R, s.h.firstReady, ResolveNext(s, w, x.key, x.snapshot, x.todo, x.values).workers[w])
  {
    if Wait(s.items, x.todo[0].ref) == NoMessage {
      assert x.todo[0].ref.target in s.h.firstReady;
    }
  }

  ghost predicate FreshPlace(s: Sys, x: Worker, x': Worker)
    requires x.Held?
  {
    && (x'.Resolving? || x'.Examining? || x'.Erasing? || x'.Forgetting? || x'.Failing?)
    && (x'.Resolving? ==>
          x'.key == x.key && x.key in s.items && x'.snapshot == s.items[x.key]
          && SameReferences(x'.todo, s.items[x.key].references))
  }

  lemma ReadGoesTo(s: Sys, w: nat, x: Worker, todo: seq<Named>)
    requires w < |s.workers| && x == s.workers[w] && x.Held?
    requires x.key in s.items ==> SameReferences(todo, s.items[x.key].references)
    ensures FreshPlace(s, x, Read(s, w, x.key, todo).workers[w])
  {
    var x' := Read(s, w, x.key, todo).workers[w];
    if x.key !in s.items {
      assert x' == Forgetting(x.key);
    } else if s.items[x.key].marked {
      assert x' == Examining(x.key) || x' == Erasing(x.key);
    } else {
      assert x' == Resolving(x.key, s.items[x.key], todo, map[]);
    }
  }

  lemma HeldGoesTo(s: Sys, w: nat, x: Worker, act: Act)
    requires w < |s.workers| && x == s.workers[w] && x.Held?
    ensures FreshPlace(s, x, AtHeld(s, w, x, act).workers[w])
  {
    ReadGoesTo(s, w, x, if x.key in s.items then InNameOrder(s.items[x.key].references) else []);
  }

  lemma FreshPlaceOk(R: References, s: Sys, x: Worker, x': Worker)
    requires OrderInv(R, s) && x.Held? && FreshPlace(s, x, x')
    ensures PlaceOk(R, s.h.firstReady, x')
  {
  }

  lemma HeldPlace(R: References, s: Sys, w: nat, x: Worker, act: Act)
    requires OrderInv(R, s) && w < |s.workers| && x == s.workers[w] && x.Held?
    ensures PlaceOk(R, s.h.firstReady, AtHeld(s, w, x, act).workers[w])
  {
    HeldGoesTo(s, w, x, act);
    FreshPlaceOk(R, s, x, AtHeld(s, w, x, act).workers[w]);
  }

  lemma ConvergingPlace(R: References, s: Sys, w: nat, x: Worker, act: Act)
    requires OrderInv(R, s) && CanAct(s, w, act) && x == s.workers[w]
    requires x.Observing? || x.Listing? || x.Making? || x.Starting? || x.Reobserving?
    ensures PlaceOk(R, s.h.firstReady, Effect(s, w, act).workers[w])
  {
    assert PlaceOk(R, s.h.firstReady, x);
    if x.Observing? {
      ObservingStays(s, w, x, act);
    } else {
      ConvergingStays(s, w, x, act);
    }
  }

  /** From converging places a worker goes on converging or reports. */
  ghost predicate StaysConverging(x: Worker, x': Worker) {
    && Holds(x) && Holds(x') && x'.key == x.key
    && (x'.Reporting? || Converging(x') || TearingDown(x')) && !x'.Resolving?
    && (Converging(x') ==> Converging(x))
    && (x'.Reporting? && x'.status.ready ==> Converging(x))
  }

  lemma ObservingStays(s: Sys, w: nat, x: Worker, act: Act)
    requires CanAct(s, w, act) && x == s.workers[w] && x.Observing?
    ensures StaysConverging(x, AtObserving(s, w, x, act).workers[w])
  {
    if !act.Fails? {
      ObservedMoves(s, w, x, Answer(s, x.spec, act));
    }
  }

  lemma ConvergingStays(s: Sys, w: nat, x: Worker, act: Act)
    requires CanAct(s, w, act) && x == s.workers[w]
    requires x.Listing? || x.Making? || x.Starting? || x.Reobserving?
    ensures StaysConverging(x, Effect(s, w, act).workers[w])
  {
  }

  /** Where a removal loop can go. */
  ghost predicate StaysRemoving(x: Worker, x': Worker) {
    && Holds(x) && Holds(x') && x'.key == x.key
    && (x'.Reporting? || Converging(x') || TearingDown(x')) && !x'.Resolving?
    && (Converging(x') ==> Converging(x))
    && (x'.Reporting? ==> !x'.status.ready)
  }

  lemma RemoveNextStays(s: Sys, w: nat, x: Worker)
    requires w < |s.workers| && x == s.workers[w] && x.Removing? && x.ids != []
    ensures StaysRemoving(x, RemoveNext(s, w, x.key, x.update, x.ids).workers[w])
  {
    var x' := RemoveNext(s, w, x.key, x.update, x.ids).workers[w];
    var failed := Reporting(x.key, if x.update.Some? then ERROR else DELETING, Failed);
    assert x' == x.(ids := x.ids[1..]) || x' == failed;
  }

  lemma RemovingStays(s: Sys, w: nat, x: Worker, act: Act)
    requires w < |s.workers| && x == s.workers[w] && x.Removing?
    ensures StaysRemoving(x, AtRemoving(s, w, x, act).workers[w])
  {
    if !act.Fails? && x.ids != [] {
      RemoveNextStays(s, w, x);
    }
  }

  lemma RemovingPlace(R: References, s: Sys, w: nat, x: Worker, act: Act)
    requires OrderInv(R, s) && w < |s.workers| && x == s.workers[w] && x.Removing?
    ensures PlaceOk(R, s.h.firstReady, AtRemoving(s, w, x, act).workers[w])
  {
    assert PlaceOk(R, s.h.firstReady, x);
    RemovingStays(s, w, x, act);
  }

  /** After a pass, or while tearing down, the place says nothing about targets. */
  lemma QuietPlace(R: References, s: Sys, w: nat, x: Worker, act: Act)
    requires CanAct(s, w, act) && x == s.workers[w] && (x.Failing? || x.Arming? || x.Forgetting?)
    ensures PlaceOk(R, s.h.firstReady, Effect(s, w, act).workers[w])
  {
  }

  lemma ExaminingPlace(R: References, s: Sys, w: nat, x: Worker, act: Act)
    requires w < |s.workers| && x == s.workers[w] && x.Examining?
    ensures PlaceOk(R, s.h.firstReady, AtExamining(s, w, x, act).workers[w])
  {
  }

  lemma ErasingPlace(R: References, s: Sys, w: nat, x: Worker, act: Act)
    requires w < |s.workers| && x == s.workers[w] && x.Erasing?
    ensures PlaceOk(R, s.h.firstReady, AtErasing(s, w, x, act).workers[w])
  {
  }

  lemma ReportingPlace(R: References, s: Sys, w: nat, x: Worker, act: Act)
    requires w < |s.workers| && x == s.workers[w] && x.Reporting?
    ensures PlaceOk(R, s.h.firstReady, AtReporting(s, w, x, act).workers[w])
  {
  }

  lemma NewPlace(R: References, s: Sys, w: nat, act: Act, s': Sys)
    requires OrderInv(R, s) && CanAct(s, w, act) && !s.workers[w].Releasing?
    requires HasFootprint(s, s', w, act) && s' == Effect(s, w, act)
    ensures PlaceOk(R, s.h.firstReady, s'.workers[w])
  {
    var x := s.workers[w];
    match x
    case Held(_) => HeldPlace(R, s, w, x, act);
    case Resolving(_, _, _, _) => ResolvedPlace(R, s, w, x, act);
    case Removing(_, _, _) => RemovingPlace(R, s, w, x, act);
    case Reporting(_, _, _) => ReportingPlace(R, s, w, x, act);
    case Observing(_, _) => ConvergingPlace(R, s, w, x, act);
    case Listing(_, _) => ConvergingPlace(R, s, w, x, act);
    case Making(_, _) => ConvergingPlace(R, s, w, x, act);
    case Starting(_, _, _) => ConvergingPlace(R, s, w, x, act);
    case Reobserving(_, _) => ConvergingPlace(R, s, w, x, act);
    case Examining(_) => ExaminingPlace(R, s, w, x, act);
    case Erasing(_) => ErasingPlace(R, s, w, x, act);
    case Failing(_) => QuietPlace(R, s, w, x, act);
    case Arming(_, _) => QuietPlace(R, s, w, x, act);
    case Forgetting(_) => QuietPlace(R, s, w, x, act);
  }

  // What a step does to readiness and creation.

  /** Only a report changes a Status, only a report of Ready extends the order, only
      making an object extends the set of created keys. */
  ghost predicate Readiness(s: Sys, s': Sys, x: Worker, act: Act)
    requires Holds(x)
  {
    && s'.h.created == (if x.Making? && act.Makes? then s.h.created + {x.key} else s.h.created)
    && (if x.Reporting? && act.Succeeds? then
          && s'.items == Store.UpdateStatus(s.items, x.key, x.status)
          && s'.h.firstReady == (if x.status.ready && x.key in s.items && x.key !in s.h.firstReady
                                 then s.h.firstReady + [x.key] else s.h.firstReady)
        else
          && s'.h.firstReady == s.h.firstReady
          && forall k | k in s'.items :: k in s.items && s'.items[k] == s.items[k])
    && (forall id | id in s'.sub.objs && id !in s.sub.objs :: x.Making? && act.Makes? && s'.sub.objs[id].key == x.key)
    && (forall id | id in s'.sub.objs && id in s.sub.objs :: s'.sub.objs[id].key == s.sub.objs[id].key)
  }

  lemma HeldReadiness(s: Sys, w: nat, x: Worker, act: Act)
    requires w < |s.workers| && x == s.workers[w] && x.Held?
    ensures Readiness(s, AtHeld(s, w, x, act), x, act)
  {
  }

  lemma ResolvingReadiness(s: Sys, w: nat, x: Worker, act: Act)
    requires w < |s.workers| && x == s.workers[w] && x.Resolving?
    ensures Readiness(s, AtResolving(s, w, x, act), x, act)
  {
    ResolveMovesOnly(s, w, x);
    OnlyMovesReadiness(s, AtResolving(s, w, x, act), w, x, act);
  }

  lemma ObservingReadiness(s: Sys, w: nat, x: Worker, act: Act)
    requires CanAct(s, w, act) && x == s.workers[w] && x.Observing?
    ensures Readiness(s, AtObserving(s, w, x, act), x, act)
  {
    ObservedMovesOnly(s, w, x, Answer(s, x.spec, act));
    OnlyMovesReadiness(s, AtObserving(s, w, x, act), w, x, act);
  }

  lemma ReobservingReadiness(s: Sys, w: nat, x: Worker, act: Act)
    requires CanAct(s, w, act) && x == s.workers[w] && x.Reobserving?
    ensures Readiness(s, AtReobserving(s, w, x, act), x, act)
  {
  }

  lemma ProviderReadiness(s: Sys, w: nat, x: Worker, act: Act)
    requires CanAct(s, w, act) && x == s.workers[w] && (x.Listing? || x.Starting? || x.Examining?)
    ensures Readiness(s, Effect(s, w, act), x, act)
  {
  }

  lemma OnlyMovesReadiness(s: Sys, s': Sys, w: nat, x: Worker, act: Act)
    requires OnlyMoves(s, s', w, x) && !(x.Making? && act.Makes?) && !(x.Reporting? && act.Succeeds?)
    ensures Readiness(s, s', x, act)
  {
  }

  lemma RemovingReadiness(s: Sys, w: nat, x: Worker, act: Act)
    requires w < |s.workers| && x == s.workers[w] && x.Removing?
    ensures Readiness(s, AtRemoving(s, w, x, act), x, act)
  {
    var s' := AtRemoving(s, w, x, act);
    RemovingMoves(s, w, x, act);
    if OnlyMoves(s, s', w, x) {
      OnlyMovesReadiness(s, s', w, x, act);
    }
  }

  lemma MakingReadiness(s: Sys, w: nat, x: Worker, act: Act)
    requires CanAct(s, w, act) && x == s.workers[w] && x.Making? && (act.Makes? ==> act.id !in s.sub.objs)
    ensures Readiness(s, AtMaking(s, w, x, act), x, act)
  {
  }

  lemma StoreReadiness(s: Sys, w: nat, x: Worker, act: Act)
    requires CanAct(s, w, act) && x == s.workers[w] && (x.Erasing? || x.Reporting?)
    ensures Readiness(s, Effect(s, w, act), x, act)
  {
  }

  lemma FinishReadiness(s: Sys, w: nat, x: Worker, act: Act)
    requires CanAct(s, w, act) && x == s.workers[w] && (x.Failing? || x.Arming? || x.Forgetting?)
    ensures Readiness(s, Effect(s, w, act), x, act)
  {
  }

  lemma ActReadiness(s: Sys, w: nat, act: Act)
    requires CanAct(s, w, act) && !s.workers[w].Releasing? && (forall id | id in s.sub.objs :: id in s.sub.issued)
    ensures Readiness(s, Effect(s, w, act), s.workers[w], act)
  {
    var x := s.workers[w];
    match x
    case Held(_) => HeldReadiness(s, w, x, act);
    case Resolving(_, _, _, _) => ResolvingReadiness(s, w, x, act);
    case Removing(_, _, _) => RemovingReadiness(s, w, x, act);
    case Making(_, _) => MakingReadiness(s, w, x, act);
    case Erasing(_) => StoreReadiness(s, w, x, act);
    case Reporting(_, _, _) => StoreReadiness(s, w, x, act);
    case Observing(_, _) => ObservingReadiness(s, w, x, act);
    case Listing(_, _) => ProviderReadiness(s, w, x, act);
    case Starting(_, _, _) => ProviderReadiness(s, w, x, act);
    case Reobserving(_, _) => ReobservingReadiness(s, w, x, act);
    case Examining(_) => ProviderReadiness(s, w, x, act);
    case Failing(_) => FinishReadiness(s, w, x, act);
    case Arming(_, _) => FinishReadiness(s, w, x, act);
    case Forgetting(_) => FinishReadiness(s, w, x, act);
  }

  // The invariant.

  lemma ReadyListGrows(R: References, s: Sys, s': Sys, x: Worker, act: Act)
    requires InOrder(R, s.h.firstReady) && Holds(x) && Readiness(s, s', x, act) && PlaceOk(R, s.h.firstReady, x)
    ensures InOrder(R, s'.h.firstReady) && Grows(s, s')
  {
    if s'.h.firstReady != s.h.firstReady {
      AppendReady(R, s.h.firstReady, x.key);
    }
  }

  lemma ReadinessKeepsOrder(R: References, s: Sys, s': Sys, w: nat, x: Worker, x': Worker, act: Act)
    requires OrderInv(R, s) && w < |s.workers| && x == s.workers[w] && Holds(x) && Holds(x')
    requires Readiness(s, s', x, act) && PlaceOk(R, s.h.firstReady, x')
    requires s'.workers == s.workers[w := x']
    ensures OrderInv(R, s')
  {
    assert PlaceOk(R, s.h.firstReady, x);
    ReadyListGrows(R, s, s', x, act);
    forall v | 0 <= v < |s'.workers| && Holds(s'.workers[v]) ensures PlaceOk(R, s'.h.firstReady, s'.workers[v]) {
      PlaceGrows(R, s.h.firstReady, s'.h.firstReady, s'.workers[v]);
    }
  }

  lemma ActKeepsOrder(R: References, s: Sys, w: nat, act: Act, s': Sys)
    requires Inv(s) && OrderInv(R, s) && CanAct(s, w, act) && s' == Effect(s, w, act)
    ensures OrderInv(R, s')
  {
    if !s.workers[w].Releasing? {
      ActFootprint(s, w, act);
      ActReadiness(s, w, act);
      NewPlace(R, s, w, act, s');
      ReadinessKeepsOrder(R, s, s', w, s.workers[w], s'.workers[w], act);
    }
  }

  /** Steps that touch neither Status nor history, and move no worker into a pass. */
  lemma StillKeepsOrder(R: References, s: Sys, s': Sys)
    requires OrderInv(R, s)
    requires s'.h.firstReady == s.h.firstReady && s'.h.created == s.h.created
    requires forall k | k in s'.items ::
               && s'.items[k].references == R(k)
               && (s'.items[k].status.ready ==> k in s.items && s.items[k].status.ready)
    requires forall id | id in s'.sub.objs :: id in s.sub.objs && s'.sub.objs[id].key == s.sub.objs[id].key
    requires |s'.workers| == |s.workers|
    requires forall v | 0 <= v < |s.workers| && Holds(s'.workers[v]) ::
               s'.workers[v] == s.workers[v] || s'.workers[v].Held?
    ensures OrderInv(R, s')
  {
  }

  lemma WriteKeepsOrder(R: References, s: Sys, step: Step)
    requires OrderInv(R, s) && Possible(s, step) && (step.UserPut? || step.UserMark?)
    requires step.UserPut? ==> step.references == R(step.key)
    ensures OrderInv(R, Happen(s, step))
  {
  }

  lemma TakeKeepsOrder(R: References, s: Sys, step: Step)
    requires OrderInv(R, s) && Possible(s, step) && (step.Takes? || step.Exits?)
    ensures OrderInv(R, Happen(s, step))
  {
    StillKeepsOrder(R, s, Happen(s, step));
  }

  lemma DriftKeepsOrder(R: References, s: Sys, step: Step)
    requires OrderInv(R, s) && Possible(s, step) && (step.DriftRemoves? || step.DriftState?)
    ensures OrderInv(R, Happen(s, step))
  {
    StillKeepsOrder(R, s, Happen(s, step));
  }

  lemma QueueKeepsOrder(R: References, s: Sys, s': Sys)
    requires OrderInv(R, s)
    requires s'.h == s.h && s'.items == s.items && s'.sub == s.sub && s'.workers == s.workers
    ensures OrderInv(R, s')
  {
  }

  lemma EnqueueKeepsOrder(R: References, s: Sys, step: Step)
    requires OrderInv(R, s) && Possible(s, step) && (step.Fires? || step.EnqueueNext?)
    ensures OrderInv(R, Happen(s, step))
  {
    EnqueueFootprint(s, step);
    QueueKeepsOrder(R, s, Happen(s, step));
  }

  lemma ControlKeepsOrder(R: References, s: Sys, step: Step)
    requires OrderInv(R, s) && Possible(s, step)
    requires !step.UserPut? && !step.UserMark? && !step.Takes? && !step.Exits? && !step.Acts?
    requires !step.DriftRemoves? && !step.DriftState? && !step.Fires? && !step.EnqueueNext?
    ensures OrderInv(R, Happen(s, step))
  {
  }

  lemma HappenKeepsOrder(R: References, s: Sys, step: Step)
    requires OrderInv(R, s) && Possible(s, step) && (step.UserPut? ==> step.references == R(step.key))
    ensures OrderInv(R, Happen(s, step))
  {
    match step
    case Acts(_, _) =>
    case UserPut(_, _, _) => WriteKeepsOrder(R, s, step);
    case UserMark(_) => WriteKeepsOrder(R, s, step);
    case Takes(_) => TakeKeepsOrder(R, s, step);
    case Exits(_) => TakeKeepsOrder(R, s, step);
    case DriftRemoves(_) => DriftKeepsOrder(R, s, step);
    case DriftState(_, _) => DriftKeepsOrder(R, s, step);
    case Fires(_) => EnqueueKeepsOrder(R, s, step);
    case EnqueueNext => EnqueueKeepsOrder(R, s, step);
    case _ => ControlKeepsOrder(R, s, step);
  }

  lemma StepKeepsOrder(R: References, s: Sys, step: Step)
    requires Inv(s) && OrderInv(R, s) && Enabled(s, step) && (step.UserPut? ==> step.references == R(step.key))
    ensures OrderInv(R, Do(s, step))
  {
    if step.Acts? {
      ActKeepsOrder(R, s, step.w, step.act, Effect(s, step.w, step.act));
    } else {
      HappenKeepsOrder(R, s, step);
    }
  }

  lemma {:induction false} RunKeepsOrder(R: References, s: Sys, steps: seq<Step>)
    requires Inv(s) && OrderInv(R, s) && LegalRun(s, steps) && FixedReferences(R, steps)
    ensures OrderInv(R, Run(s, steps))
    decreases steps
  {
    if steps != [] {
      assert steps[0] in steps;
      StepKeepsInv(s, steps[0]);
      StepKeepsOrder(R, s, steps[0]);
      RunKeepsOrder(R, Do(s, steps[0]), steps[1..]);
    }
  }

  /** The first time a key is Ready comes strictly after the first Ready of each of
      its targets; and an object is only ever created once all targets were Ready. */
  lemma TargetsAreReadyFirst(R: References, s0: Sys, steps: seq<Step>)
    requires Initial(s0) && LegalRun(s0, steps) && FixedReferences(R, steps)
    ensures
      var s := Run(s0, steps);
      && InOrder(R, s.h.firstReady)
      && (forall key | key in s.items && s.items[key].status.ready :: key in s.h.firstReady)
      && (forall id | id in s.sub.objs :: AllReady(R, s.h.firstReady, s.sub.objs[id].key))
  {
    InitialInv(s0);
    RunKeepsOrder(R, s0, steps);
  }

  ghost predicate NeedsOneOf(R: References, key: Key, keys: set<Key>) {
    exists name :: name in R(key) && R(key)[name].target in keys
  }

  /** A set of keys each of which needs another one of the set. */
  ghost predicate Stuck(R: References, keys: set<Key>) {
    forall key | key in keys :: NeedsOneOf(R, key, keys)
  }

  lemma {:induction false} NoneReadyUpTo(R: References, ready: seq<Key>, keys: set<Key>, n: nat)
    requires InOrder(R, ready) && Stuck(R, keys) && n <= |ready|
    ensures forall i | 0 <= i < n :: ready[i] !in keys
  {
    if n > 0 {
      NoneReadyUpTo(R, ready, keys, n - 1);
      if ready[n - 1] in keys {
        assert false;
      }
    }
  }

  ghost predicate NeverReady(s: Sys, key: Key) {
    && key !in s.h.firstReady && key !in s.h.created
    && (key in s.items ==> !s.items[key].status.ready)
    && Owned(s.sub, key) == {}
  }

  lemma StuckInState(R: References, s: Sys, keys: set<Key>, key: Key)
    requires InOrder(R, s.h.firstReady) && Stuck(R, keys) && key in keys
    requires key in s.h.created ==> AllReady(R, s.h.firstReady, key)
    requires key in s.items && s.items[key].status.ready ==> key in s.h.firstReady
    requires forall id | id in s.sub.objs :: s.sub.objs[id].key in s.h.created
    ensures NeverReady(s, key)
  {
    NoneReadyUpTo(R, s.h.firstReady, keys, |s.h.firstReady|);
    assert NeedsOneOf(R, key, keys);
  }

  /** Nothing in a stuck set is ever Ready, nor is any object created for it. */
  lemma StuckNeverReady(R: References, s0: Sys, steps: seq<Step>, keys: set<Key>)
    requires Initial(s0) && LegalRun(s0, steps) && FixedReferences(R, steps) && Stuck(R, keys)
    ensures forall key | key in keys :: NeverReady(Run(s0, steps), key)
  {
    InitialInv(s0);
    RunKeepsOrder(R, s0, steps);
    forall key | key in keys ensures NeverReady(Run(s0, steps), key) {
      StuckInState(R, Run(s0, steps), keys, key);
    }
  }

  /** Along `path` each key references the next; the last references `path[back]`. */
  ghost predicate EndsInCycle(R: References, path: seq<Key>, back: nat) {
    && back < |path|
    && (forall i | 0 <= i < |path| - 1 :: HasTarget(R, path[i], path[i + 1]))
    && HasTarget(R, path[|path| - 1], path[back])
  }

  /** A reference cycle of any length, and every key on a path into it, is stuck, so
      needs no detector: none of it is ever Ready or created. */
  lemma CycleNeverReady(R: References, s0: Sys, steps: seq<Step>, path: seq<Key>, back: nat)
    requires Initial(s0) && LegalRun(s0, steps) && FixedReferences(R, steps) && EndsInCycle(R, path, back)
    ensures forall i | 0 <= i < |path| :: NeverReady(Run(s0, steps), path[i])
  {
    var keys := set i | 0 <= i < |path| :: path[i];
    forall key | key in keys ensures NeedsOneOf(R, key, keys) {
      var i :| 0 <= i < |path| && path[i] == key;
      var next := if i + 1 < |path| then path[i + 1] else path[back];
      assert HasTarget(R, key, next) && next in keys;
      var name :| name in R(key) && R(key)[name].target == next;
    }
    StuckNeverReady(R, s0, steps, keys);
  }
}
