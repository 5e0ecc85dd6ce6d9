/** Convergence in the whole system, with the passes of different keys overlapping in
    any way (core/reconcile/reconciler.go:153-267, 330-380). */
module OverlappingRounds {
  import opened Model
  import opened Engine
  import opened System
  import opened Ordered
  import opened JsonText
  import opened SystemInvariant
  import opened SystemFootprint
  import opened SystemTheorems
  import opened Passes
  import opened PassFrame
  import opened Simulation
  import opened Segments
  import opened Convergence
  import opened Queues

  /** No user writes and nobody else touches the objects; every call succeeds, a network
      in the way of an update is not in use, and what is up to date runs. */
  ghost predicate SmoothStep(s: Sys, step: Step)
    requires Enabled(s, step)
  {
    && !step.UserPut? && !step.UserMark? && !step.DriftRemoves? && !step.DriftState?
    && (step.Acts? ==> SmoothAct(s, s.workers[step.w], step.act))
  }

  ghost predicate SmoothAct(s: Sys, x: Worker, act: Act) {
    && !act.Fails? && (act.Makes? ==> act.image != [] && act.driver != [])
    && (x.Removing? && x.ids != [] ==> !Refuses(s.sub, x.ids[0]))
    && (x.Observing? && act.Finds? && act.id in s.sub.objs && s.sub.objs[act.id].hash == SpecHash(x.spec) ==>
          Healthy(s.sub.objs[act.id]))
  }

  ghost predicate SmoothRun(s: Sys, steps: seq<Step>)
    requires LegalRun(s, steps)
    decreases steps
  {
    steps == [] || (SmoothStep(s, steps[0]) && SmoothRun(Do(s, steps[0]), steps[1..]))
  }

  /** What every smooth step keeps. */
  ghost predicate Sound(s: Sys, rank: Key -> nat) {
    Inv(s) && SubComplete(s.sub) && Declared(s.items, rank)
  }

  /** The key's object runs and matches the Spec. */
  ghost predicate Runs(sub: Substrate, key: Key, spec: Bytes) {
    Owned(sub, key) != {} && var obs := Observe(sub, key, spec); obs.ready && obs.upToDate
  }

  /** A worker that will settle its key: its references have the values they have now, and
      what it holds goes with the Spec they resolve to. */
  ghost predicate OnTrack(w: World, x: Worker) {
    && Holds(x) && x.key in w.items && Wanted(w.items, x.key).Some?
    && var spec := Wanted(w.items, x.key).value;
       match x
       case Resolving(key, snapshot, todo, values) => Resolves(w.items, key, snapshot, todo, values)
       case Observing(_, s) => s == spec
       case Listing(_, update) => update == Some(spec)
       case Removing(_, update, ids) => update == Some(spec) && Distinct(ids) && forall id | id in ids :: id in Owned(w.sub, x.key)
       case Making(_, s) => s == spec
       case Starting(_, s, id) =>
         s == spec && id in Owned(w.sub, x.key) && w.sub.objs[id].Container? && w.sub.objs[id].hash == SpecHash(spec)
       case Reobserving(_, s) => s == spec && Runs(w.sub, x.key, spec)
       case Reporting(_, status, outcome) =>
         outcome == Passed && Runs(w.sub, x.key, spec) && status == StatusOf(Observe(w.sub, x.key, spec))
       case _ => false
  }

  /** The rest of the resolution ends with the values the whole of it has now. */
  ghost predicate Resolves(items: Items, key: Key, snapshot: Resource, todo: seq<Named>, values: map<Bytes, Bytes>)
    requires key in items
  {
    && snapshot.spec == items[key].spec && snapshot.references == items[key].references
    && (forall n | n in todo :: n.name in items[key].references && items[key].references[n.name] == n.ref)
    && Resolve(items, todo, values, QUIET) == Resolve(items, InNameOrder(items[key].references), map[], QUIET)
  }

  // The worker's own steps, place by place.

  ghost predicate TracksOn(s': Sys, w: nat) {
    w < |s'.workers| && OnTrack(WorldOf(s'), s'.workers[w])
  }

  lemma ReadTracks(s: Sys, w: nat, key: Key)
    requires w < |s.workers| && key in s.items && !s.items[key].marked && Wanted(s.items, key).Some?
    ensures TracksOn(Read(s, w, key, InNameOrder(s.items[key].references)), w)
  {
  }

  lemma LastReferenceTracks(s: Sys, w: nat, x: Worker)
    requires w < |s.workers| && x == s.workers[w] && x.Resolving? && x.todo == [] && OnTrack(WorldOf(s), x) && Managed(x.key)
    ensures TracksOn(ResolveNext(s, w, x.key, x.snapshot, x.todo, x.values), w)
    ensures ResolveNext(s, w, x.key, x.snapshot, x.todo, x.values).workers[w].Observing?
  {
    var resolved := Resolved(x.snapshot, x.values);
    assert resolved == Wanted(s.items, x.key) by {
      assert Resolve(s.items, [], x.values, QUIET) == Values(x.values);
    }
  }

  lemma NextReferenceTracks(s: Sys, w: nat, x: Worker)
    requires w < |s.workers| && x == s.workers[w] && x.Resolving? && x.todo != [] && OnTrack(WorldOf(s), x)
    ensures TracksOn(ResolveNext(s, w, x.key, x.snapshot, x.todo, x.values), w)
    ensures ResolveNext(s, w, x.key, x.snapshot, x.todo, x.values).workers[w].Resolving?
  {
    assert Resolve(s.items, x.todo, x.values, QUIET).Values?;
    assert Wait(s.items, x.todo[0].ref) == NoMessage;
  }

  lemma ObservingTracks(s: Sys, w: nat, x: Worker, act: Act)
    requires CanAct(s, w, act) && x == s.workers[w] && x.Observing? && OnTrack(WorldOf(s), x) && SmoothAct(s, x, act)
    requires Single(s.sub)
    ensures TracksOn(AtObserving(s, w, x, act), w)
    ensures Runs(s.sub, x.key, x.spec) ==> AtObserving(s, w, x, act).workers[w].Reporting?
  {
    AnswerIsObserve(s, x.key, x.spec, act);
    Simulation.ObservedMoves(s, w, x.key, x.spec, Answer(s, x.spec, act));
    if act.Finds? {
      SingleOwned(s.sub, x.key, act.id);
    }
  }

  lemma ListingTracks(s: Sys, w: nat, x: Worker, act: Act)
    requires CanAct(s, w, act) && x == s.workers[w] && x.Listing? && OnTrack(WorldOf(s), x) && SmoothAct(s, x, act)
    ensures TracksOn(AtListing(s, w, x, act), w)
  {
  }

  lemma RemovedTracks(sub: Substrate, key: Key, ids: seq<ObjId>)
    requires ids != [] && Distinct(ids) && forall id | id in ids :: id in Owned(sub, key)
    ensures Distinct(ids[1..]) && forall id | id in ids[1..] :: id in Owned(Remove(sub, {ids[0]}), key)
  {
    forall id | id in ids[1..] ensures id in ids && id != ids[0] {
      var i :| 0 <= i < |ids[1..]| && ids[1..][i] == id;
      assert ids[i + 1] == id;
    }
  }

  lemma RemovingTracks(s: Sys, w: nat, x: Worker, act: Act)
    requires CanAct(s, w, act) && x == s.workers[w] && x.Removing? && OnTrack(WorldOf(s), x) && SmoothAct(s, x, act)
    ensures TracksOn(AtRemoving(s, w, x, act), w)
  {
    if x.ids != [] {
      assert x.ids[0] in x.ids;
      RemovedTracks(s.sub, x.key, x.ids);
    }
  }

  lemma MakingTracks(s: Sys, w: nat, x: Worker, act: Act)
    requires CanAct(s, w, act) && x == s.workers[w] && x.Making? && OnTrack(WorldOf(s), x) && SmoothAct(s, x, act)
    requires Owned(s.sub, x.key) == {} && Issued(s.sub)
    ensures TracksOn(AtMaking(s, w, x, act), w)
  {
    forall id | id in s.sub.objs ensures s.sub.objs[id].key != x.key {
      assert id !in Owned(s.sub, x.key);
    }
    assert Owned(Add(s.sub, act.id, NewObj(x.key, x.spec, act.image, act.network, act.driver)), x.key) == {act.id};
  }

  lemma StartingTracks(s: Sys, w: nat, x: Worker, act: Act)
    requires CanAct(s, w, act) && x == s.workers[w] && x.Starting? && OnTrack(WorldOf(s), x) && SmoothAct(s, x, act)
    requires Single(s.sub)
    ensures TracksOn(AtStarting(s, w, x, act), w)
  {
    SingleOwned(s.sub, x.key, x.id);
    assert Owned(SetState(s.sub, x.id, RUNNING), x.key) == {x.id};
  }

  lemma ReobservingTracks(s: Sys, w: nat, x: Worker, act: Act)
    requires CanAct(s, w, act) && x == s.workers[w] && x.Reobserving? && OnTrack(WorldOf(s), x) && SmoothAct(s, x, act)
    requires Single(s.sub)
    ensures TracksOn(AtReobserving(s, w, x, act), w)
  {
    AnswerIsObserve(s, x.key, x.spec, act);
  }

  lemma ReportingSettles(s: Sys, w: nat, x: Worker, act: Act, rank: Key -> nat)
    requires CanAct(s, w, act) && x == s.workers[w] && x.Reporting? && OnTrack(WorldOf(s), x) && !act.Fails?
    requires Entry(s.items, rank, x.key)
    ensures
      var s' := AtReporting(s, w, x, act);
      && x.key in s'.items && Settled(WorldOf(s'), x.key) && w < |s'.workers| && s'.workers[w] == Forgetting(x.key)
  {
    OwnStatusIsNotRead(s.items, rank, x.key, x.status);
  }

  /** The worker's own step keeps it on track, or records what settles the key. */
  ghost predicate TracksOrSettles(s': Sys, w: nat, key: Key) {
    || TracksOn(s', w)
    || (key in s'.items && Settled(WorldOf(s'), key) && w < |s'.workers| && s'.workers[w] == Forgetting(key))
  }

  lemma ResolvingTracks(s: Sys, w: nat, x: Worker, act: Act)
    requires CanAct(s, w, act) && x == s.workers[w] && x.Resolving? && OnTrack(WorldOf(s), x) && !act.Fails? && Managed(x.key)
    ensures TracksOn(AtResolving(s, w, x, act), w)
    ensures AtResolving(s, w, x, act).workers[w].Resolving? || AtResolving(s, w, x, act).workers[w].Observing?
  {
    if x.todo == [] {
      LastReferenceTracks(s, w, x);
    } else {
      NextReferenceTracks(s, w, x);
    }
  }

  lemma ChangingTracks(s: Sys, w: nat, act: Act)
    requires Inv(s) && CanAct(s, w, act) && OnTrack(WorldOf(s), s.workers[w]) && SmoothAct(s, s.workers[w], act)
    requires s.workers[w].Listing? || s.workers[w].Removing? || s.workers[w].Making?
    ensures TracksOn(Effect(s, w, act), w)
  {
    var x := s.workers[w];
    assert WorkerOk(s, x);
    if x.Listing? {
      ListingTracks(s, w, x, act);
    } else if x.Removing? {
      RemovingTracks(s, w, x, act);
    } else {
      MakingTracks(s, w, x, act);
    }
  }

  lemma LookingTracks(s: Sys, w: nat, act: Act)
    requires Inv(s) && CanAct(s, w, act) && OnTrack(WorldOf(s), s.workers[w]) && SmoothAct(s, s.workers[w], act)
    requires Managed(s.workers[w].key)
    requires s.workers[w].Resolving? || s.workers[w].Observing? || s.workers[w].Starting? || s.workers[w].Reobserving?
    ensures TracksOn(Effect(s, w, act), w)
  {
    var x := s.workers[w];
    if x.Resolving? {
      ResolvingTracks(s, w, x, act);
    } else if x.Observing? {
      ObservingTracks(s, w, x, act);
    } else if x.Starting? {
      StartingTracks(s, w, x, act);
    } else {
      ReobservingTracks(s, w, x, act);
    }
  }

  lemma OwnStepTracks(s: Sys, w: nat, act: Act, s': Sys, rank: Key -> nat)
    requires Sound(s, rank) && CanAct(s, w, act) && s' == Effect(s, w, act)
    requires OnTrack(WorldOf(s), s.workers[w]) && SmoothAct(s, s.workers[w], act)
    ensures TracksOrSettles(s', w, s.workers[w].key)
  {
    var x := s.workers[w];
    assert Entry(s.items, rank, x.key);
    if x.Reporting? {
      ReportingSettles(s, w, x, act, rank);
    } else if x.Listing? || x.Removing? || x.Making? {
      ChangingTracks(s, w, act);
    } else {
      LookingTracks(s, w, act);
    }
  }

  // Settled keys, with whatever workers hold them.

  /** The worker will leave its settled key as it is. */
  ghost predicate AtRest(w: World, x: Worker) {
    || x.Held? || x.Failing? || x.Arming? || x.Forgetting? || x.Releasing?
    || (OnTrack(w, x) && (x.Resolving? || x.Observing? || x.Reporting?))
  }

  ghost predicate SettledAt(s: Sys, key: Key) {
    && key in s.items && Settled(WorldOf(s), key)
    && forall v | 0 <= v < |s.workers| && Holds(s.workers[v]) && s.workers[v].key == key :: AtRest(WorldOf(s), s.workers[v])
  }

  ghost predicate AllSettledAt(s: Sys, keys: set<Key>) {
    forall k | k in keys :: SettledAt(s, k) && TargetsIn(s.items, keys, k)
  }

  /** The world is as before, and the worker at rest or done. */
  ghost predicate RestsOn(s: Sys, s': Sys, w: nat) {
    WorldOf(s') == WorldOf(s) && w < |s'.workers| && (AtRest(WorldOf(s'), s'.workers[w]) || s'.workers[w].Idle?)
  }

  lemma HeldRests(s: Sys, w: nat, x: Worker, act: Act)
    requires CanAct(s, w, act) && x == s.workers[w] && x.Held? && !act.Fails?
    requires x.key in s.items && !s.items[x.key].marked && Wanted(s.items, x.key).Some?
    ensures RestsOn(s, AtHeld(s, w, x, act), w)
  {
    ReadTracks(s, w, x.key);
    ReadKeepsWorld(s, w, x.key, InNameOrder(s.items[x.key].references));
  }

  lemma ReadKeepsWorld(s: Sys, w: nat, key: Key, todo: seq<Named>)
    requires w < |s.workers| && key in s.items && !s.items[key].marked
    ensures
      var s' := Read(s, w, key, todo);
      WorldOf(s') == WorldOf(s) && w < |s'.workers| && s'.workers[w].Resolving?
  {
  }

  lemma ResolvingRests(s: Sys, w: nat, x: Worker, act: Act)
    requires CanAct(s, w, act) && x == s.workers[w] && x.Resolving? && OnTrack(WorldOf(s), x) && !act.Fails? && Managed(x.key)
    ensures RestsOn(s, AtResolving(s, w, x, act), w)
  {
    ResolvingTracks(s, w, x, act);
    ResolvingKeepsWorld(s, w, x, act);
  }

  lemma ResolvingKeepsWorld(s: Sys, w: nat, x: Worker, act: Act)
    requires w < |s.workers| && x == s.workers[w] && x.Resolving?
    ensures WorldOf(AtResolving(s, w, x, act)) == WorldOf(s)
  {
    BeginMovesOnly(s, w, x, Resolved(x.snapshot, x.values));
  }

  lemma ObservingRests(s: Sys, w: nat, x: Worker, act: Act)
    requires CanAct(s, w, act) && x == s.workers[w] && x.Observing? && OnTrack(WorldOf(s), x) && SmoothAct(s, x, act)
    requires Single(s.sub) && Settled(WorldOf(s), x.key)
    ensures RestsOn(s, AtObserving(s, w, x, act), w)
  {
    ObservingTracks(s, w, x, act);
    ObservingKeepsWorld(s, w, x, act);
  }

  lemma ObservingKeepsWorld(s: Sys, w: nat, x: Worker, act: Act)
    requires CanAct(s, w, act) && x == s.workers[w] && x.Observing?
    ensures WorldOf(AtObserving(s, w, x, act)) == WorldOf(s)
  {
  }

  lemma ReportingRests(s: Sys, w: nat, x: Worker, act: Act)
    requires CanAct(s, w, act) && x == s.workers[w] && x.Reporting? && !act.Fails? && OnTrack(WorldOf(s), x)
    requires Settled(WorldOf(s), x.key)
    ensures RestsOn(s, AtReporting(s, w, x, act), w)
  {
    assert s.items[x.key := s.items[x.key].(status := x.status)] == s.items;
  }

  lemma AfterPassRests(s: Sys, w: nat, x: Worker, act: Act)
    requires CanAct(s, w, act) && x == s.workers[w] && (x.Failing? || x.Arming? || x.Forgetting? || x.Releasing?)
    ensures RestsOn(s, Effect(s, w, act), w)
  {
  }

  lemma PassRests(s: Sys, w: nat, act: Act)
    requires Inv(s) && CanAct(s, w, act) && SmoothAct(s, s.workers[w], act) && Managed(s.workers[w].key)
    requires SettledAt(s, s.workers[w].key) && OnTrack(WorldOf(s), s.workers[w])
    requires s.workers[w].Resolving? || s.workers[w].Observing? || s.workers[w].Reporting?
    ensures RestsOn(s, Effect(s, w, act), w)
  {
    var x := s.workers[w];
    if x.Resolving? {
      ResolvingRests(s, w, x, act);
    } else if x.Observing? {
      ObservingRests(s, w, x, act);
    } else {
      ReportingRests(s, w, x, act);
    }
  }

  lemma HeldActRests(s: Sys, w: nat, act: Act)
    requires CanAct(s, w, act) && s.workers[w].Held? && !act.Fails?
    requires s.workers[w].key in s.items && !s.items[s.workers[w].key].marked && Wanted(s.items, s.workers[w].key).Some?
    ensures RestsOn(s, Effect(s, w, act), w)
  {
    assert Effect(s, w, act) == AtHeld(s, w, s.workers[w], act);
    HeldRests(s, w, s.workers[w], act);
  }

  lemma SettledFacts(s: Sys, w: nat, rank: Key -> nat)
    requires Declared(s.items, rank) && w < |s.workers| && Holds(s.workers[w]) && SettledAt(s, s.workers[w].key)
    ensures
      var x := s.workers[w];
      Managed(x.key) && !s.items[x.key].marked && Wanted(s.items, x.key).Some? && AtRest(WorldOf(s), x)
  {
    assert Entry(s.items, rank, s.workers[w].key);
  }

  /** No step on a settled key changes store or substrate. */
  lemma OwnStepRests(s: Sys, w: nat, act: Act, s': Sys, rank: Key -> nat)
    requires Sound(s, rank) && CanAct(s, w, act) && s' == Effect(s, w, act) && SmoothAct(s, s.workers[w], act)
    requires SettledAt(s, s.workers[w].key)
    ensures RestsOn(s, s', w)
  {
    var x := s.workers[w];
    SettledFacts(s, w, rank);
    if x.Held? {
      HeldActRests(s, w, act);
    } else if x.Resolving? || x.Observing? || x.Reporting? {
      PassRests(s, w, act);
    } else {
      AfterPassRests(s, w, x, act);
    }
  }

  // Steps on other keys.

  lemma OnTrackElsewhere(w: World, w': World, x: Worker, key: Key)
    requires Frame(w, w', key) && Single(w.sub) && Holds(x) && x.key != key && OnTrack(w, x)
    requires forall name | name in w.items[x.key].references ::
               w.items[x.key].references[name].target != key && w.items[x.key].references[name].target in w.items
    ensures OnTrack(w', x)
  {
    WantedReadsTargets(w.items, w'.items, x.key);
    OwnedElsewhere(w.sub, w'.sub, key, x.key);
    if Owned(w.sub, x.key) != {} {
      SingleOwned(w.sub, x.key, Only(w.sub, x.key));
      SingleOwned(w'.sub, x.key, Only(w'.sub, x.key));
    }
    if x.Resolving? {
      ResolveReadsTargets(w.items, w'.items, x.todo, x.values);
      ResolveReadsTargets(w.items, w'.items, InNameOrder(w.items[x.key].references), map[]);
    }
  }

  lemma ChangeKeepsComplete(s: Sys, w: nat, act: Act, s': Sys)
    requires Inv(s) && CanAct(s, w, act) && SmoothAct(s, s.workers[w], act) && SubComplete(s.sub)
    requires Holds(s.workers[w]) && SubMoves(s.sub, s'.sub, s.workers[w], act)
    ensures SubComplete(s'.sub)
  {
  }

  /** The footprint of a step on an entry keeps the entries well declared. */
  lemma FootprintKeepsDeclared(s: Sys, s': Sys, w: nat, x: Worker, x': Worker, act: Act, rank: Key -> nat)
    requires Footprint(s, s', w, x, x', act) && WorkerOk(s, x) && Declared(s.items, rank)
    ensures Declared(s'.items, rank) && s'.items.Keys == s.items.Keys
  {
    assert x.key in s.items ==> Entry(s.items, rank, x.key);
    SameEntriesStayDeclared(s.items, s'.items, rank, x.key);
  }

  lemma ActKeepsSound(s: Sys, w: nat, act: Act, s': Sys, rank: Key -> nat)
    requires Sound(s, rank) && CanAct(s, w, act) && s' == Effect(s, w, act) && SmoothAct(s, s.workers[w], act)
    ensures Sound(s', rank) && s'.items.Keys == s.items.Keys
    ensures !s.workers[w].Releasing? ==> HasFootprint(s, s', w, act) && Frame(WorldOf(s), WorldOf(s'), s.workers[w].key)
  {
    StepKeepsInv(s, Acts(w, act));
    var x := s.workers[w];
    if !x.Releasing? {
      ActFrame(s, w, act, s');
      ChangeKeepsComplete(s, w, act, s');
      assert WorkerOk(s, x);
      FootprintKeepsDeclared(s, s', w, x, s'.workers[w], act, rank);
    }
  }

  lemma StepKeepsSound(s: Sys, step: Step, rank: Key -> nat)
    requires Sound(s, rank) && Enabled(s, step) && SmoothStep(s, step)
    ensures Sound(Do(s, step), rank) && Do(s, step).items.Keys == s.items.Keys
  {
    StepKeepsInv(s, step);
    if step.Acts? {
      ActKeepsSound(s, step.w, step.act, Effect(s, step.w, step.act), rank);
    } else {
      OtherStepsKeepWorld(s, step);
    }
  }

  // Steps of the system.

  /** The workers are the same but for w, which is at rest or holds nothing. */
  ghost predicate OneMoves(s: Sys, s': Sys, w: nat) {
    && w < |s.workers| && |s'.workers| == |s.workers|
    && forall v | 0 <= v < |s.workers| && v != w :: s'.workers[v] == s.workers[v]
  }

  lemma QuietKeepsSettled(s: Sys, s': Sys, w: nat, keys: set<Key>)
    requires AllSettledAt(s, keys) && WorldOf(s') == WorldOf(s) && OneMoves(s, s', w)
    requires !Holds(s'.workers[w]) || AtRest(WorldOf(s'), s'.workers[w])
    ensures AllSettledAt(s', keys)
  {
    forall k | k in keys ensures SettledAt(s', k) && TargetsIn(s'.items, keys, k) {
      assert SettledAt(s, k);
    }
  }

  lemma SameWorkersKeepSettled(s: Sys, s': Sys, keys: set<Key>)
    requires AllSettledAt(s, keys) && WorldOf(s') == WorldOf(s) && s'.workers == s.workers
    ensures AllSettledAt(s', keys)
  {
    forall k | k in keys ensures SettledAt(s', k) && TargetsIn(s'.items, keys, k) {
      assert SettledAt(s, k);
    }
  }

  lemma RestElsewhere(w: World, w': World, x: Worker, key: Key)
    requires Frame(w, w', key) && Single(w.sub) && Holds(x) && x.key != key && AtRest(w, x)
    requires x.key in w.items
    requires forall name | name in w.items[x.key].references ::
               w.items[x.key].references[name].target != key && w.items[x.key].references[name].target in w.items
    ensures AtRest(w', x)
  {
    if OnTrack(w, x) {
      OnTrackElsewhere(w, w', x, key);
    }
  }

  /** A settled key does not notice a step on a key it does not reference. */
  lemma SettledFromAfar(w: World, w': World, workers: seq<Worker>, rank: Key -> nat, key: Key, k: Key)
    requires Good(w, rank) && Frame(w, w', key) && k != key && k in w.items && k in w'.items && Settled(w, k)
    requires forall name | name in w.items[k].references :: w.items[k].references[name].target != key
    requires forall v | 0 <= v < |workers| && Holds(workers[v]) && workers[v].key == k :: AtRest(w, workers[v])
    ensures Settled(w', k)
    ensures forall v | 0 <= v < |workers| && Holds(workers[v]) && workers[v].key == k :: AtRest(w', workers[v])
  {
    assert Entry(w.items, rank, k);
    SettledElsewhere(w, w', rank, key, k);
    forall v | 0 <= v < |workers| && Holds(workers[v]) && workers[v].key == k ensures AtRest(w', workers[v]) {
      RestElsewhere(w, w', workers[v], key);
    }
  }

  lemma OneSettledElsewhere(s: Sys, s': Sys, w: nat, rank: Key -> nat, keys: set<Key>, k: Key)
    requires Good(WorldOf(s), rank) && AllSettledAt(s, keys) && k in keys && OneMoves(s, s', w)
    requires Holds(s.workers[w]) && s.workers[w].key !in keys && Holds(s'.workers[w]) && s'.workers[w].key == s.workers[w].key
    requires Frame(WorldOf(s), WorldOf(s'), s.workers[w].key) && s'.items.Keys == s.items.Keys
    ensures SettledAt(s', k) && TargetsIn(s'.items, keys, k)
  {
    assert SettledAt(s, k) && TargetsIn(s.items, keys, k);
    SettledFromAfar(WorldOf(s), WorldOf(s'), s.workers, rank, s.workers[w].key, k);
  }

  lemma OthersKeepSettled(s: Sys, s': Sys, w: nat, rank: Key -> nat, keys: set<Key>)
    requires Good(WorldOf(s), rank) && AllSettledAt(s, keys) && OneMoves(s, s', w)
    requires Holds(s.workers[w]) && s.workers[w].key !in keys && Holds(s'.workers[w]) && s'.workers[w].key == s.workers[w].key
    requires Frame(WorldOf(s), WorldOf(s'), s.workers[w].key) && s'.items.Keys == s.items.Keys
    ensures AllSettledAt(s', keys)
  {
    forall k | k in keys ensures SettledAt(s', k) && TargetsIn(s'.items, keys, k) {
      OneSettledElsewhere(s, s', w, rank, keys, k);
    }
  }

  lemma RestKeepsSettled(s: Sys, w: nat, act: Act, s': Sys, rank: Key -> nat, keys: set<Key>)
    requires Sound(s, rank) && AllSettledAt(s, keys)
    requires CanAct(s, w, act) && s' == Effect(s, w, act) && SmoothAct(s, s.workers[w], act) && s.workers[w].key in keys
    ensures AllSettledAt(s', keys) && WorldOf(s') == WorldOf(s)
  {
    assert SettledAt(s, s.workers[w].key);
    OwnStepRests(s, w, act, s', rank);
    ActMovesOne(s, w, act, s');
    QuietKeepsSettled(s, s', w, keys);
  }

  lemma ReleaseKeepsSettled(s: Sys, w: nat, act: Act, keys: set<Key>)
    requires AllSettledAt(s, keys) && CanAct(s, w, act) && s.workers[w].Releasing?
    ensures AllSettledAt(Effect(s, w, act), keys)
  {
    QuietKeepsSettled(s, Effect(s, w, act), w, keys);
  }

  lemma ActKeepsSettled(s: Sys, w: nat, act: Act, s': Sys, rank: Key -> nat, keys: set<Key>)
    requires Sound(s, rank) && AllSettledAt(s, keys)
    requires CanAct(s, w, act) && s' == Effect(s, w, act) && SmoothAct(s, s.workers[w], act)
    ensures AllSettledAt(s', keys)
    ensures s.workers[w].key in keys ==> WorldOf(s') == WorldOf(s)
  {
    if s.workers[w].key in keys {
      RestKeepsSettled(s, w, act, s', rank, keys);
    } else if s.workers[w].Releasing? {
      ReleaseKeepsSettled(s, w, act, keys);
    } else {
      ActKeepsSound(s, w, act, s', rank);
      ActMovesOne(s, w, act, s');
      OthersKeepSettled(s, s', w, rank, keys);
    }
  }

  lemma ActMovesOne(s: Sys, w: nat, act: Act, s': Sys)
    requires Inv(s) && CanAct(s, w, act) && s' == Effect(s, w, act)
    ensures OneMoves(s, s', w)
  {
    if !s.workers[w].Releasing? {
      ActFootprint(s, w, act);
    }
  }

  lemma TakeKeepsSettled(s: Sys, step: Step, keys: set<Key>)
    requires AllSettledAt(s, keys) && Possible(s, step) && (step.Takes? || step.Exits?)
    ensures AllSettledAt(Happen(s, step), keys)
  {
    QuietKeepsSettled(s, Happen(s, step), step.w, keys);
  }

  /** The other steps touch neither store, nor substrate, nor workers. */
  lemma ControlKeepsWorld(s: Sys, step: Step)
    requires Possible(s, step) && SmoothStep(s, step) && !step.Acts? && !step.Takes? && !step.Exits?
    ensures WorldOf(Happen(s, step)) == WorldOf(s) && Happen(s, step).workers == s.workers
  {
  }

  lemma StepKeepsSettled(s: Sys, step: Step, rank: Key -> nat, keys: set<Key>)
    requires Sound(s, rank) && AllSettledAt(s, keys) && Enabled(s, step) && SmoothStep(s, step)
    ensures AllSettledAt(Do(s, step), keys)
  {
    if step.Acts? {
      ActKeepsSettled(s, step.w, step.act, Effect(s, step.w, step.act), rank, keys);
    } else if step.Takes? || step.Exits? {
      TakeKeepsSettled(s, step, keys);
    } else {
      ControlKeepsWorld(s, step);
      SameWorkersKeepSettled(s, Do(s, step), keys);
    }
  }

  // A pass that starts with its targets settled.

  ghost predicate Tracked(s: Sys, key: Key) {
    exists w :: 0 <= w < |s.workers| && Holds(s.workers[w]) && s.workers[w].key == key && OnTrack(WorldOf(s), s.workers[w])
  }

  lemma SettledByOneWorker(s: Sys, w: nat, key: Key)
    requires Inv(s) && key in s.items && Settled(WorldOf(s), key) && w < |s.workers| && s.workers[w] == Forgetting(key)
    ensures SettledAt(s, key)
  {
  }

  lemma OnTrackHasNotEnded(w: World, x: Worker, x': Worker)
    requires OnTrack(w, x')
    ensures !Concludes(x, x')
  {
  }

  lemma FrameTracks(w: World, w': World, x: Worker, rank: Key -> nat, keys: set<Key>, key: Key)
    requires Good(w, rank) && Frame(w, w', key) && Holds(x) && x.key != key && key !in keys
    requires OnTrack(w, x) && TargetsIn(w.items, keys, x.key)
    ensures OnTrack(w', x)
  {
    assert Entry(w.items, rank, x.key);
    OnTrackElsewhere(w, w', x, key);
  }

  lemma ReleaseKeepsWorld(s: Sys, w: nat, act: Act)
    requires CanAct(s, w, act) && s.workers[w].Releasing?
    ensures WorldOf(Effect(s, w, act)) == WorldOf(s)
  {
  }

  /** The world does not change for a key whose targets are settled, unless by a step on
      the key. */
  lemma OtherActTracks(s: Sys, v: nat, act: Act, s': Sys, x: Worker, rank: Key -> nat, keys: set<Key>)
    requires Sound(s, rank) && AllSettledAt(s, keys)
    requires CanAct(s, v, act) && s' == Effect(s, v, act) && SmoothAct(s, s.workers[v], act)
    requires Holds(x) && OnTrack(WorldOf(s), x) && TargetsIn(s.items, keys, x.key)
    requires s.workers[v].Releasing? || s.workers[v].key != x.key
    ensures OnTrack(WorldOf(s'), x)
  {
    SettledActFrames(s, v, act, s', rank, keys);
    if WorldOf(s') != WorldOf(s) {
      FrameTracks(WorldOf(s), WorldOf(s'), x, rank, keys, s.workers[v].key);
    }
  }

  lemma SettledActFrames(s: Sys, v: nat, act: Act, s': Sys, rank: Key -> nat, keys: set<Key>)
    requires Sound(s, rank) && AllSettledAt(s, keys)
    requires CanAct(s, v, act) && s' == Effect(s, v, act) && SmoothAct(s, s.workers[v], act)
    ensures || WorldOf(s') == WorldOf(s)
            || (!s.workers[v].Releasing? && s.workers[v].key !in keys && Frame(WorldOf(s), WorldOf(s'), s.workers[v].key))
  {
    if s.workers[v].key in keys {
      ActKeepsSettled(s, v, act, s', rank, keys);
    } else if s.workers[v].Releasing? {
      ReleaseKeepsWorld(s, v, act);
    } else {
      ActKeepsSound(s, v, act, s', rank);
    }
  }

  lemma OtherStepTracks(s: Sys, step: Step, w: nat, rank: Key -> nat, keys: set<Key>, key: Key)
    requires Sound(s, rank) && AllSettledAt(s, keys) && Enabled(s, step) && SmoothStep(s, step)
    requires key in s.items && TargetsIn(s.items, keys, key)
    requires w < |s.workers| && Holds(s.workers[w]) && s.workers[w].key == key && OnTrack(WorldOf(s), s.workers[w])
    requires !(step.Acts? && step.w == w)
    ensures Tracked(Do(s, step), key) && !Ends(s, step, key)
  {
    OthersMove(s, step, w, key);
    if step.Acts? {
      OtherActTracks(s, step.w, step.act, Effect(s, step.w, step.act), s.workers[w], rank, keys);
    } else {
      OtherStepsKeepWorld(s, step);
    }
    assert OnTrack(WorldOf(Do(s, step)), Do(s, step).workers[w]);
  }

  lemma OtherStepsKeepWorld(s: Sys, step: Step)
    requires Possible(s, step) && SmoothStep(s, step) && !step.Acts?
    ensures WorldOf(Happen(s, step)) == WorldOf(s)
  {
    if !step.Takes? && !step.Exits? {
      ControlKeepsWorld(s, step);
    }
  }

  lemma StepTracks(s: Sys, step: Step, rank: Key -> nat, keys: set<Key>, key: Key)
    requires Sound(s, rank) && AllSettledAt(s, keys) && Enabled(s, step) && SmoothStep(s, step)
    requires key in s.items && TargetsIn(s.items, keys, key) && Tracked(s, key)
    ensures SettledAt(Do(s, step), key) || (Tracked(Do(s, step), key) && !Ends(s, step, key))
  {
    var w :| 0 <= w < |s.workers| && Holds(s.workers[w]) && s.workers[w].key == key && OnTrack(WorldOf(s), s.workers[w]);
    if step.Acts? && step.w == w {
      OwnStepEnds(s, w, step.act, Effect(s, w, step.act), rank);
    } else {
      OtherStepTracks(s, step, w, rank, keys, key);
    }
  }

  lemma OwnStepEnds(s: Sys, w: nat, act: Act, s': Sys, rank: Key -> nat)
    requires Sound(s, rank) && CanAct(s, w, act) && s' == Effect(s, w, act)
    requires OnTrack(WorldOf(s), s.workers[w]) && SmoothAct(s, s.workers[w], act)
    ensures SettledAt(s', s.workers[w].key)
            || (Tracked(s', s.workers[w].key) && w < |s'.workers| && !Concludes(s.workers[w], s'.workers[w]))
  {
    OwnStepTracks(s, w, act, s', rank);
    ActKeepsSound(s, w, act, s', rank);
    if TracksOn(s', w) {
      OnTrackHasNotEnded(WorldOf(s'), s.workers[w], s'.workers[w]);
    } else {
      SettledByOneWorker(s', w, s.workers[w].key);
    }
  }

  lemma SettledTargetsResolve(s: Sys, rank: Key -> nat, keys: set<Key>, key: Key)
    requires Good(WorldOf(s), rank) && AllSettledAt(s, keys) && key in s.items && TargetsIn(s.items, keys, key)
    ensures Wanted(s.items, key).Some? && !s.items[key].marked
  {
    assert Entry(s.items, rank, key);
    forall k | k in keys ensures k in s.items && Settled(WorldOf(s), k) {
      assert SettledAt(s, k);
    }
    WantedWhenTargetsSettled(WorldOf(s), rank, keys, key);
  }

  lemma ReadStartsTracking(s: Sys, step: Step, rank: Key -> nat, keys: set<Key>, key: Key)
    requires Sound(s, rank) && AllSettledAt(s, keys) && Enabled(s, step) && Reads(s, step, key)
    requires key in s.items && TargetsIn(s.items, keys, key)
    ensures Tracked(Do(s, step), key)
  {
    SettledTargetsResolve(s, rank, keys, key);
    ReadTracked(s, step.w, key);
  }

  lemma ReadTracked(s: Sys, w: nat, key: Key)
    requires w < |s.workers| && s.workers[w] == Held(key) && key in s.items && !s.items[key].marked && Wanted(s.items, key).Some?
    ensures Tracked(AtHeld(s, w, s.workers[w], Succeeds), key)
  {
    ReadTracks(s, w, key);
    ReadKeepsKey(s, w, key, InNameOrder(s.items[key].references));
  }

  lemma ReadKeepsKey(s: Sys, w: nat, key: Key, todo: seq<Named>)
    requires w < |s.workers| && key in s.items && !s.items[key].marked
    ensures
      var s' := Read(s, w, key, todo);
      w < |s'.workers| && Holds(s'.workers[w]) && s'.workers[w].key == key
  {
  }

  lemma MoreSettled(s: Sys, keys: set<Key>, key: Key)
    requires AllSettledAt(s, keys) && SettledAt(s, key) && TargetsIn(s.items, keys, key)
    ensures AllSettledAt(s, keys + {key})
  {
    forall k | k in keys + {key} ensures SettledAt(s, k) && TargetsIn(s.items, keys + {key}, k) {
      assert k in keys ==> SettledAt(s, k) && TargetsIn(s.items, keys, k);
    }
  }

  // Runs.

  lemma StepKeepsConfig(s: Sys, step: Step, rank: Key -> nat)
    requires Sound(s, rank) && Enabled(s, step) && SmoothStep(s, step)
    ensures SameConfig(s.items, Do(s, step).items)
  {
    if step.Acts? {
      ActKeepsConfig(s, step.w, step.act, Effect(s, step.w, step.act), rank);
    } else {
      OtherStepsKeepWorld(s, step);
    }
  }

  lemma ActKeepsConfig(s: Sys, w: nat, act: Act, s': Sys, rank: Key -> nat)
    requires Sound(s, rank) && CanAct(s, w, act) && s' == Effect(s, w, act) && SmoothAct(s, s.workers[w], act)
    ensures SameConfig(s.items, s'.items)
  {
    if !s.workers[w].Releasing? {
      ActKeepsSound(s, w, act, s', rank);
      FrameKeepsConfig(WorldOf(s), WorldOf(s'), s.workers[w].key);
    }
  }

  lemma {:induction false} RunKeepsSettled(s: Sys, steps: seq<Step>, rank: Key -> nat, keys: set<Key>)
    requires Sound(s, rank) && AllSettledAt(s, keys) && LegalRun(s, steps) && SmoothRun(s, steps)
    ensures Sound(Run(s, steps), rank) && AllSettledAt(Run(s, steps), keys) && SameConfig(s.items, Run(s, steps).items)
    decreases steps
  {
    if steps != [] {
      StepKeepsSound(s, steps[0], rank);
      StepKeepsConfig(s, steps[0], rank);
      StepKeepsSettled(s, steps[0], rank, keys);
      RunKeepsSettled(Do(s, steps[0]), steps[1..], rank, keys);
    }
  }

  lemma {:induction false} TrackedSettles(s: Sys, steps: seq<Step>, rank: Key -> nat, keys: set<Key>, key: Key)
    requires Sound(s, rank) && AllSettledAt(s, keys) && LegalRun(s, steps) && SmoothRun(s, steps)
    requires key in s.items && TargetsIn(s.items, keys, key)
    requires SettledAt(s, key) || (Tracked(s, key) && EndsIn(s, steps, key))
    ensures SettledAt(Run(s, steps), key)
    decreases steps
  {
    if SettledAt(s, key) {
      MoreSettled(s, keys, key);
      RunKeepsSettled(s, steps, rank, keys + {key});
    } else {
      var s' := Do(s, steps[0]);
      StepKeepsSound(s, steps[0], rank);
      StepKeepsConfig(s, steps[0], rank);
      StepKeepsSettled(s, steps[0], rank, keys);
      StepTracks(s, steps[0], rank, keys, key);
      TargetsInGrows(s.items, s'.items, keys, keys, key);
      TrackedSettles(s', steps[1..], rank, keys, key);
    }
  }

  /** A whole pass over a key whose targets are settled settles it, whatever other
      workers do meanwhile. */
  lemma {:induction false} PassSettlesKey(s: Sys, steps: seq<Step>, rank: Key -> nat, keys: set<Key>, key: Key)
    requires Sound(s, rank) && AllSettledAt(s, keys) && LegalRun(s, steps) && SmoothRun(s, steps)
    requires key in s.items && TargetsIn(s.items, keys, key) && PassIn(s, steps, key)
    ensures SettledAt(Run(s, steps), key)
    decreases steps
  {
    var s' := Do(s, steps[0]);
    StepKeepsSound(s, steps[0], rank);
    StepKeepsConfig(s, steps[0], rank);
    StepKeepsSettled(s, steps[0], rank, keys);
    TargetsInGrows(s.items, s'.items, keys, keys, key);
    if PassIn(s', steps[1..], key) {
      PassSettlesKey(s', steps[1..], rank, keys, key);
    } else {
      ReadStartsTracking(s, steps[0], rank, keys, key);
      TrackedSettles(s', steps[1..], rank, keys, key);
    }
  }

  lemma TargetsInGrows(items: Items, items': Items, keys: set<Key>, keys': set<Key>, key: Key)
    requires SameConfig(items, items') && keys <= keys' && key in items && TargetsIn(items, keys, key)
    ensures TargetsIn(items', keys', key)
  {
  }

  /** A stretch of the run with a whole pass over every key settles one more rank. */
  lemma StretchSettles(s: Sys, steps: seq<Step>, rank: Key -> nat, n: nat)
    requires Sound(s, rank) && AllSettledAt(s, Below(s.items, rank, n))
    requires LegalRun(s, steps) && SmoothRun(s, steps) && AllPassIn(s, steps)
    ensures
      var s' := Run(s, steps);
      Sound(s', rank) && SameConfig(s.items, s'.items) && AllSettledAt(s', Below(s'.items, rank, n + 1))
  {
    var s', keys := Run(s, steps), Below(s.items, rank, n);
    RunKeepsSettled(s, steps, rank, keys);
    forall k | k in Below(s'.items, rank, n + 1)
      ensures SettledAt(s', k) && TargetsIn(s'.items, Below(s'.items, rank, n + 1), k)
    {
      assert Entry(s.items, rank, k) && Entry(s'.items, rank, k);
      PassSettlesKey(s, steps, rank, keys, k);
    }
  }

  ghost predicate Stretches(s: Sys, stretches: seq<seq<Step>>)
    decreases |stretches|
  {
    stretches == [] ||
    (LegalRun(s, stretches[0]) && SmoothRun(s, stretches[0]) && AllPassIn(s, stretches[0])
     && Stretches(Run(s, stretches[0]), stretches[1..]))
  }

  ghost function RunAll(s: Sys, stretches: seq<seq<Step>>): Sys
    requires Stretches(s, stretches)
    decreases |stretches|
  {
    if stretches == [] then s else RunAll(Run(s, stretches[0]), stretches[1..])
  }

  lemma {:induction false} StretchesSettle(s: Sys, stretches: seq<seq<Step>>, rank: Key -> nat, n: nat)
    requires Sound(s, rank) && AllSettledAt(s, Below(s.items, rank, n)) && Stretches(s, stretches)
    ensures
      var s' := RunAll(s, stretches);
      Sound(s', rank) && SameConfig(s.items, s'.items) && AllSettledAt(s', Below(s'.items, rank, n + |stretches|))
    decreases |stretches|
  {
    if stretches != [] {
      StretchSettles(s, stretches[0], rank, n);
      StretchesSettle(Run(s, stretches[0]), stretches[1..], rank, n + 1);
    }
  }

  /** Bounded convergence with any number of workers: a resource of reference depth r is
      Ready after r + 1 stretches of the run in each of which every key has a whole pass,
      however the passes overlap, and stays so in every smooth run that follows. */
  lemma OverlappingConvergence(s: Sys, stretches: seq<seq<Step>>, later: seq<Step>, rank: Key -> nat, key: Key)
    requires Reachable(s) && SubComplete(s.sub) && Declared(s.items, rank) && Stretches(s, stretches)
    requires LegalRun(RunAll(s, stretches), later) && SmoothRun(RunAll(s, stretches), later)
    requires key in s.items && rank(key) < |stretches|
    ensures
      var s' := Run(RunAll(s, stretches), later);
      && key in s'.items && s'.items[key].status.phase == Phase.Ready && s'.items[key].status.ready
      && Settled(WorldOf(s'), key)
  {
    ReachableInv(s);
    StretchesSettle(s, stretches, rank, 0);
    var s' := RunAll(s, stretches);
    RunKeepsSettled(s', later, rank, Below(s'.items, rank, |stretches|));
    assert SettledAt(Run(s', later), key);
  }

  // Once everything is settled, nothing changes.

  lemma AbsentIsIdle(s: Sys, w: nat, act: Act, s': Sys)
    requires Inv(s) && CanAct(s, w, act) && s' == Effect(s, w, act) && s.workers[w].key !in s.items
    ensures WorldOf(s') == WorldOf(s)
  {
    if !s.workers[w].Releasing? {
      ActFootprint(s, w, act);
      assert WorkerOk(s, s.workers[w]);
      AbsentFootprint(s, s', w, s.workers[w], s'.workers[w], act);
    }
  }

  lemma AbsentFootprint(s: Sys, s': Sys, w: nat, x: Worker, x': Worker, act: Act)
    requires Footprint(s, s', w, x, x', act) && x.key !in s.items && WorkerOk(s, x)
    ensures WorldOf(s') == WorldOf(s)
  {
    assert s'.items.Keys == s.items.Keys;
  }

  lemma SettledStepIsIdle(s: Sys, step: Step, rank: Key -> nat)
    requires Sound(s, rank) && AllSettledAt(s, s.items.Keys) && Enabled(s, step) && SmoothStep(s, step)
    ensures WorldOf(Do(s, step)) == WorldOf(s)
  {
    if !step.Acts? {
      OtherStepsKeepWorld(s, step);
    } else if s.workers[step.w].key in s.items {
      ActKeepsSettled(s, step.w, step.act, Effect(s, step.w, step.act), rank, s.items.Keys);
    } else {
      AbsentIsIdle(s, step.w, step.act, Effect(s, step.w, step.act));
    }
  }

  lemma {:induction false} SettledRunIsIdle(s: Sys, steps: seq<Step>, rank: Key -> nat)
    requires Sound(s, rank) && AllSettledAt(s, s.items.Keys) && LegalRun(s, steps) && SmoothRun(s, steps)
    ensures WorldOf(Run(s, steps)) == WorldOf(s)
    decreases steps
  {
    if steps != [] {
      SettledStepIsIdle(s, steps[0], rank);
      StepKeepsSound(s, steps[0], rank);
      StepKeepsSettled(s, steps[0], rank, s.items.Keys);
      SettledRunIsIdle(Do(s, steps[0]), steps[1..], rank);
    }
  }

  /** After more stretches than the deepest resource needs, the system is quiescent: no
      smooth run changes the store or the substrate. */
  lemma QuiescentAfterStretches(s: Sys, stretches: seq<seq<Step>>, rank: Key -> nat, later: seq<Step>)
    requires Reachable(s) && SubComplete(s.sub) && Declared(s.items, rank) && Stretches(s, stretches)
    requires forall key | key in s.items :: rank(key) < |stretches|
    requires LegalRun(RunAll(s, stretches), later) && SmoothRun(RunAll(s, stretches), later)
    ensures WorldOf(Run(RunAll(s, stretches), later)) == WorldOf(RunAll(s, stretches))
  {
    ReachableInv(s);
    StretchesSettle(s, stretches, rank, 0);
    var s' := RunAll(s, stretches);
    assert Below(s'.items, rank, |stretches|) == s'.items.Keys;
    SettledRunIsIdle(s', later, rank);
  }
}
