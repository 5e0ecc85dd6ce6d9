/** A stopped object whose Spec hash is up to date is a fixed point: passes neither
    restart nor replace it (core/reconcile/reconciler.go:344-379,
    core/reconcile/reconciler_test.go:155-170). It is repaired exactly when the Spec a
    pass resolves has another fingerprint. */
module Stranding {
  import opened Model
  import opened Engine
  import opened System
  import opened Ordered
  import opened JsonText
  import opened Passes
  import opened PassFrame
  import opened Convergence

  /** An object that is up to date is left as it is, and the resource is Ready exactly
      if it runs. */
  lemma UpToDateIsLeftAlone(w: World, key: Key, env: Env, spec: Bytes, id: ObjId)
    requires Single(w.sub) && (key.kind == CONTAINER || key.kind == NETWORK) && env.faults == {}
    requires key in w.items && !w.items[key].marked && (w.items[key].references != map[] ==> ValidJson(w.items[key].spec))
    requires id in Owned(w.sub, key) && Wanted(w.items, key) == Some(spec) && w.sub.objs[id].hash == SpecHash(spec)
    ensures
      var w' := Pass(w, key, env).world;
      && w'.sub == w.sub && key in w'.items
      && (w'.items[key].status.ready <==> Healthy(w.sub.objs[id]))
  {
    FaultlessPass(w, key, env);
    SingleOwned(w.sub, key, id);
  }

  /** A container that does not run is repaired by a pass in which every call succeeds if
      and only if it is stale: killing it alone does not make it so. */
  lemma RepairedIffStale(w: World, key: Key, env: Env, spec: Bytes, id: ObjId)
    requires SubOk(w.sub) && (key.kind == CONTAINER || key.kind == NETWORK) && env.faults == {} && Fresh(w.sub, env.id)
    requires key in w.items && !w.items[key].marked && (w.items[key].references != map[] ==> ValidJson(w.items[key].spec))
    requires id in Owned(w.sub, key) && Wanted(w.items, key) == Some(spec) && !Healthy(w.sub.objs[id])
    ensures
      var w' := Pass(w, key, env).world;
      key in w'.items && (w'.items[key].status.ready <==> w.sub.objs[id].hash != SpecHash(spec))
  {
    FaultlessPass(w, key, env);
    SingleOwned(w.sub, key, id);
    if w.sub.objs[id].hash != SpecHash(spec) {
      SmoothConverge(w.sub, key, spec, env);
    }
  }

  /** `id` is the key's object, stopped. */
  ghost predicate Stranded(w: World, key: Key, id: ObjId) {
    && Single(w.sub) && Issued(w.sub) && (key.kind == CONTAINER || key.kind == NETWORK) && key in w.items && !w.items[key].marked
    && id in Owned(w.sub, key) && !Healthy(w.sub.objs[id])
  }

  /** The pass is about another key, or its references do not resolve, or they resolve
      to a Spec with the object's fingerprint. */
  ghost predicate StaysUpToDate(w: World, key: Key, hash: Fingerprint, v: Visit)
    requires key in w.items
  {
    v.key == key ==>
      var r := Resolve(w.items, InNameOrder(w.items[key].references), map[], v.env);
      r.Values? ==>
        match Resolved(w.items[key], r.values)
        case None => true
        case Some(spec) => SpecHash(spec) == hash
  }

  /** ... and so for every pass of the run. */
  ghost predicate NeverStale(w: World, key: Key, hash: Fingerprint, visits: seq<Visit>)
    decreases |visits|
  {
    visits == [] ||
    (key in w.items && StaysUpToDate(w, key, hash, visits[0]) && NeverStale(After(w, visits[0]), key, hash, visits[1..]))
  }

  lemma UpToDateConverge(sub: Substrate, key: Key, spec: Bytes, id: ObjId, env: Env)
    requires Single(sub) && id in Owned(sub, key) && sub.objs[id].hash == SpecHash(spec) && !Healthy(sub.objs[id])
    ensures Converge(sub, key, spec, env).sub == sub && !Converge(sub, key, spec, env).status.ready
  {
    SingleOwned(sub, key, id);
  }

  /** A pass over the key that can record its Status records that it is not Ready. */
  lemma OwnPassStays(w: World, key: Key, id: ObjId, v: Visit)
    requires Stranded(w, key, id) && StaysUpToDate(w, key, w.sub.objs[id].hash, v) && v.key == key
    ensures
      var w' := After(w, v);
      && w'.sub == w.sub && key in w'.items
      && w'.items[key].(status := w.items[key].status) == w.items[key]
      && (if GetCall in v.env.faults || StatusCall in v.env.faults then w'.items[key].status == w.items[key].status
          else !w'.items[key].status.ready)
  {
    var r := Resolve(w.items, InNameOrder(w.items[key].references), map[], v.env);
    if r.Values? && Resolved(w.items[key], r.values).Some? {
      UpToDateConverge(w.sub, key, Resolved(w.items[key], r.values).value, id, v.env);
    }
  }

  lemma PassStaysStranded(w: World, key: Key, id: ObjId, v: Visit)
    requires Stranded(w, key, id) && StaysUpToDate(w, key, w.sub.objs[id].hash, v)
    ensures Stranded(After(w, v), key, id) && After(w, v).sub.objs[id] == w.sub.objs[id]
    ensures !w.items[key].status.ready || Recorded([v], key) ==> !After(w, v).items[key].status.ready
    ensures After(w, v).items[key].references == w.items[key].references && After(w, v).items[key].spec == w.items[key].spec
  {
    PassElsewhere(w, v.key, v.env);
    if v.key == key {
      OwnPassStays(w, key, id, v);
    } else {
      OwnedElsewhere(w.sub, After(w, v).sub, v.key, key);
    }
  }

  /** Some pass over the key could read it and write its Status. */
  predicate Recorded(visits: seq<Visit>, key: Key) {
    exists v :: v in visits && v.key == key && GetCall !in v.env.faults && StatusCall !in v.env.faults
  }

  /** As long as no pass resolves the key to another fingerprint, no number of passes, in
      any order and with any failures, repairs it; and it is not Ready from the first
      pass that can record so. */
  lemma {:induction false} StrandedForever(w: World, key: Key, id: ObjId, visits: seq<Visit>)
    requires Stranded(w, key, id) && NeverStale(w, key, w.sub.objs[id].hash, visits)
    ensures Stranded(Round(w, visits), key, id) && Round(w, visits).sub.objs[id] == w.sub.objs[id]
    ensures !w.items[key].status.ready || Recorded(visits, key) ==> !Round(w, visits).items[key].status.ready
    decreases |visits|
  {
    if visits != [] {
      PassStaysStranded(w, key, id, visits[0]);
      StrandedForever(After(w, visits[0]), key, id, visits[1..]);
      assert Recorded(visits, key) ==> Recorded([visits[0]], key) || Recorded(visits[1..], key) by {
        assert visits == [visits[0]] + visits[1..];
      }
    }
  }

  /** Without references the Spec never changes, so nothing is asked of the passes. */
  lemma {:induction false} FixedIsNeverStale(w: World, key: Key, id: ObjId, visits: seq<Visit>)
    requires Stranded(w, key, id) && w.items[key].references == map[] && w.sub.objs[id].hash == SpecHash(w.items[key].spec)
    ensures NeverStale(w, key, w.sub.objs[id].hash, visits)
    decreases |visits|
  {
    if visits != [] {
      PassStaysStranded(w, key, id, visits[0]);
      FixedIsNeverStale(After(w, visits[0]), key, id, visits[1..]);
    }
  }

  /** One failed ContainerStart is enough to get there. */
  lemma FailedStartStrands(w: World, key: Key, env: Env, spec: Bytes, visits: seq<Visit>)
    requires Single(w.sub) && Issued(w.sub) && key.kind == CONTAINER && Owned(w.sub, key) == {}
    requires key in w.items && !w.items[key].marked && (w.items[key].references != map[] ==> ValidJson(w.items[key].spec))
    requires env.faults == {StartCall} && Fresh(w.sub, env.id) && Wanted(w.items, key) == Some(spec)
    requires NeverStale(Pass(w, key, env).world, key, SpecHash(spec), visits)
    ensures
      var w' := Round(Pass(w, key, env).world, visits);
      && key in w'.items && !w'.items[key].status.ready
      && env.id in w'.sub.objs && w'.sub.objs[env.id].Container? && w'.sub.objs[env.id].state == CREATED
  {
    StartFaultResolves(w.items, InNameOrder(w.items[key].references), map[], env);
    PassElsewhere(w, key, env);
    StrandedForever(Pass(w, key, env).world, key, env.id, visits);
  }

  lemma {:induction false} StartFaultResolves(items: Items, todo: seq<Named>, values: map<Bytes, Bytes>, env: Env)
    requires env.faults == {StartCall}
    ensures Resolve(items, todo, values, env) == Resolve(items, todo, values, QUIET)
    decreases todo
  {
    if todo != [] && Wait(items, todo[0].ref) == NoMessage {
      StartFaultResolves(items, todo[1..], values[todo[0].name := items[todo[0].ref.target].status.observed[todo[0].ref.field]], env);
    }
  }

  /** A container killed out of band stays as it is, and is not Ready from the first pass
      that can record so, until a pass resolves its Spec to another fingerprint. */
  lemma KilledStaysKilled(w: World, key: Key, id: ObjId, state: Bytes, visits: seq<Visit>)
    requires Single(w.sub) && Issued(w.sub) && (key.kind == CONTAINER || key.kind == NETWORK) && state != RUNNING && key in w.items && !w.items[key].marked
    requires id in Owned(w.sub, key) && w.sub.objs[id].Container?
    requires NeverStale(World(w.items, SetState(w.sub, id, state)), key, w.sub.objs[id].hash, visits)
    ensures
      var w' := Round(World(w.items, SetState(w.sub, id, state)), visits);
      && key in w'.items && (Recorded(visits, key) ==> !w'.items[key].status.ready)
      && id in w'.sub.objs && w'.sub.objs[id] == w.sub.objs[id].(state := state)
  {
    KilledIsOwned(w.sub, key, id, state);
    StrandedForever(World(w.items, SetState(w.sub, id, state)), key, id, visits);
  }

  lemma KilledIsOwned(sub: Substrate, key: Key, id: ObjId, state: Bytes)
    requires Single(sub) && Issued(sub) && id in Owned(sub, key) && sub.objs[id].Container?
    ensures
      var sub' := SetState(sub, id, state);
      Single(sub') && Issued(sub') && id in Owned(sub', key) && sub'.objs[id] == sub.objs[id].(state := state)
  {
  }
}
