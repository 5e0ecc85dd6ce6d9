/** Convergence in rounds of passes: how many rounds until a resource is Ready, and
    what later rounds do (core/reconcile/reconciler.go:227-267, 330-380). */
module Convergence {
  import opened Model
  import opened Engine
  import opened System
  import opened Ordered
  import opened JsonText
  import opened Passes
  import opened PassFrame
  import Store
  import DocumentSubstitution

  const QUIET := Env({}, "", "", "", "")

  /** The Spec a pass would converge `key` to, if its references resolve. */
  ghost function Wanted(items: Items, key: Key): Option<Bytes>
    requires key in items
  {
    match Resolve(items, InNameOrder(items[key].references), map[], QUIET)
    case Values(values) => Resolved(items[key], values)
    case Parked(_) => None
    case Broken => None
  }

  /** Every detail an observation of the object reports is set. */
  predicate Complete(id: ObjId, obj: Obj) {
    id != [] && match obj
    case Container(_, _, image, state, _) => image != [] && state != []
    case Network(_, _, driver) => driver != []
  }

  ghost predicate SubOk(sub: Substrate) {
    && Single(sub) && Issued(sub)
    && (forall id | id in sub.objs :: Complete(id, sub.objs[id]) && (sub.objs[id].Network? <==> sub.objs[id].key.kind == NETWORK))
  }

  /** The status fields a Ready resource of a kind carries. */
  predicate Carries(kind: Bytes, field: Bytes) {
    if kind == NETWORK then field == "networkId" || field == "driver"
    else field == "containerId" || field == "image" || field == "state"
  }

  ghost predicate TargetsIn(items: Items, keys: set<Key>, key: Key)
    requires key in items
  {
    forall name | name in items[key].references :: items[key].references[name].target in keys
  }

  /** An acyclic, fully present reference graph: each target is declared, carries the
      field asked for, and has a smaller rank. */
  ghost predicate Declared(items: Items, rank: Key -> nat) {
    forall key | key in items :: Entry(items, rank, key)
  }

  ghost predicate Entry(items: Items, rank: Key -> nat, key: Key)
    requires key in items
  {
    && !items[key].marked && (key.kind == CONTAINER || key.kind == NETWORK)
    && (items[key].references != map[] ==> ValidJson(items[key].spec))
    && (forall name | name in items[key].references ::
          var ref := items[key].references[name];
          ref.target in items && Carries(ref.target.kind, ref.field) && rank(ref.target) < rank(key))
  }

  /** The key's object is as its resolved Spec wants it, and its Status says so. */
  ghost predicate Settled(w: World, key: Key)
    requires key in w.items
  {
    && Wanted(w.items, key).Some?
    && Owned(w.sub, key) != {}
    && var obs := Observe(w.sub, key, Wanted(w.items, key).value);
       obs.upToDate && obs.ready && w.items[key].status == StatusOf(obs)
  }

  /** A pass in which every call succeeds: nothing fails, a stale network is not in
      use, and an object that is up to date is running. */
  ghost predicate Smooth(w: World, key: Key, env: Env) {
    && Clean(w, env)
    && (key in w.items && Wanted(w.items, key).Some? ==>
          forall id | id in Owned(w.sub, key) ::
            if w.sub.objs[id].hash == SpecHash(Wanted(w.items, key).value) then Healthy(w.sub.objs[id])
            else !Refuses(w.sub, id))
  }

  ghost predicate Clean(w: World, env: Env) {
    env.faults == {} && Fresh(w.sub, env.id) && env.image != [] && env.driver != []
  }

  // Resolution.

  lemma {:induction false} FaultlessResolve(items: Items, todo: seq<Named>, values: map<Bytes, Bytes>, env: Env)
    requires env.faults == {}
    ensures Resolve(items, todo, values, env) == Resolve(items, todo, values, QUIET)
    decreases todo
  {
    if todo != [] && Wait(items, todo[0].ref) == NoMessage {
      FaultlessResolve(items, todo[1..], values[todo[0].name := items[todo[0].ref.target].status.observed[todo[0].ref.field]], env);
    }
  }

  /** Resolution looks at the Status of the targets and nothing else. */
  lemma {:induction false} ResolveReadsTargets(items: Items, items': Items, todo: seq<Named>, values: map<Bytes, Bytes>)
    requires forall n | n in todo ::
               && (n.ref.target in items <==> n.ref.target in items')
               && (n.ref.target in items ==> items[n.ref.target].status == items'[n.ref.target].status)
    ensures Resolve(items, todo, values, QUIET) == Resolve(items', todo, values, QUIET)
    decreases todo
  {
    if todo != [] {
      assert todo[0] in todo;
      assert Wait(items, todo[0].ref) == Wait(items', todo[0].ref);
      if Wait(items, todo[0].ref) == NoMessage {
        ResolveReadsTargets(items, items', todo[1..],
                            values[todo[0].name := items[todo[0].ref.target].status.observed[todo[0].ref.field]]);
      }
    }
  }

  lemma {:induction false} ResolvesWhenReady(items: Items, todo: seq<Named>, values: map<Bytes, Bytes>)
    requires forall n | n in todo :: Wait(items, n.ref) == NoMessage
    ensures Resolve(items, todo, values, QUIET).Values?
    decreases todo
  {
    if todo != [] {
      assert todo[0] in todo;
      ResolvesWhenReady(items, todo[1..], values[todo[0].name := items[todo[0].ref.target].status.observed[todo[0].ref.field]]);
    }
  }

  /** With no message of its own to give, resolution only stops at a target. */
  lemma {:induction false} FaultlessNeverBreaks(items: Items, todo: seq<Named>, values: map<Bytes, Bytes>)
    ensures !Resolve(items, todo, values, QUIET).Broken?
    decreases todo
  {
    if todo != [] && Wait(items, todo[0].ref) == NoMessage {
      FaultlessNeverBreaks(items, todo[1..], values[todo[0].name := items[todo[0].ref.target].status.observed[todo[0].ref.field]]);
    }
  }

  lemma SpliceIsAccepted(snapshot: Resource, values: map<Bytes, Bytes>)
    requires snapshot.references != map[] ==> ValidJson(snapshot.spec)
    ensures Resolved(snapshot, values).Some?
  {
    if snapshot.references != map[] {
      DocumentSubstitution.SubstitutionPreservesJson(snapshot.spec, values);
    }
  }

  lemma WantedReadsTargets(items: Items, items': Items, key: Key)
    requires key in items && key in items' && items'[key].references == items[key].references && items'[key].spec == items[key].spec
    requires forall name | name in items[key].references ::
               var target := items[key].references[name].target;
               target in items && target in items' && items'[target].status == items[target].status
    ensures Wanted(items', key) == Wanted(items, key)
  {
    var todo := InNameOrder(items[key].references);
    ResolveReadsTargets(items, items', todo, map[]);
  }

  lemma ReadyTargetResolves(w: World, rank: Key -> nat, ref: Reference)
    requires SubOk(w.sub) && ref.target in w.items && Settled(w, ref.target) && Carries(ref.target.kind, ref.field)
    ensures Wait(w.items, ref) == NoMessage
  {
  }

  lemma WantedWhenTargetsSettled(w: World, rank: Key -> nat, keys: set<Key>, key: Key)
    requires SubOk(w.sub) && Declared(w.items, rank) && key in w.items && TargetsIn(w.items, keys, key)
    requires forall k | k in keys :: k in w.items && Settled(w, k)
    ensures Wanted(w.items, key).Some?
  {
    assert Entry(w.items, rank, key);
    var todo := InNameOrder(w.items[key].references);
    forall n | n in todo ensures Wait(w.items, n.ref) == NoMessage {
      ReadyTargetResolves(w, rank, n.ref);
    }
    ResolvesWhenReady(w.items, todo, map[]);
    SpliceIsAccepted(w.items[key], Resolve(w.items, todo, map[], QUIET).values);
  }

  // One smooth pass.

  /** converge, when every call succeeds: afterwards the key owns one object, running
      and up to date, and the Status reports it. An object already so is kept. */
  lemma SmoothConverge(sub: Substrate, key: Key, spec: Bytes, env: Env)
    requires SubOk(sub) && (key.kind == CONTAINER || key.kind == NETWORK) && env.faults == {} && Fresh(sub, env.id)
    requires forall id | id in Owned(sub, key) ::
               if sub.objs[id].hash == SpecHash(spec) then Healthy(sub.objs[id]) else !Refuses(sub, id)
    ensures
      var c := Converge(sub, key, spec, env);
      var obs := Observe(c.sub, key, spec);
      && Owned(c.sub, key) != {} && obs.upToDate && obs.ready && c.status == StatusOf(obs) && c.outcome == Passed
      && (Owned(sub, key) != {} && Observe(sub, key, spec).upToDate ==> c.sub == sub)
  {
    if Owned(sub, key) == {} {
      CreatedIsUpToDate(sub, key, spec, env);
    } else {
      var id := Only(sub, key);
      assert id in Owned(sub, key);
      if sub.objs[id].hash != SpecHash(spec) {
        SingleOwned(sub, key, id);
        DeleteKeepsSingle(sub, key, env);
        CreatedIsUpToDate(Remove(sub, {id}), key, spec, env);
      }
    }
  }

  lemma CreatedIsUpToDate(sub: Substrate, key: Key, spec: Bytes, env: Env)
    requires Owned(sub, key) == {} && env.faults == {} && Fresh(sub, env.id)
    ensures
      var r := CreateObject(sub, key, spec, env);
      r.ok && Owned(r.sub, key) == {env.id} && r.sub.objs[env.id].hash == SpecHash(spec) && Healthy(r.sub.objs[env.id])
  {
  }

  lemma FaultlessPass(w: World, key: Key, env: Env)
    requires key in w.items && !w.items[key].marked && env.faults == {}
    requires w.items[key].references != map[] ==> ValidJson(w.items[key].spec)
    ensures
      var p := Pass(w, key, env);
      match Wanted(w.items, key)
      case Some(spec) =>
        var c := Converge(w.sub, key, spec, env);
        p == PassResult(World(Store.UpdateStatus(w.items, key, c.status), c.sub), c.outcome)
      case None => p.world.sub == w.sub && p.outcome == Again
  {
    var todo := InNameOrder(w.items[key].references);
    FaultlessResolve(w.items, todo, map[], env);
    FaultlessNeverBreaks(w.items, todo, map[]);
    var r := Resolve(w.items, todo, map[], QUIET);
    if r.Values? {
      SpliceIsAccepted(w.items[key], r.values);
    }
  }

  /** Ready is honest: whatever fails, a pass records it only when the key's object runs
      and matches the Spec the pass resolved. */
  lemma ReadyMeansConverged(w: World, key: Key, env: Env)
    requires key in w.items && !w.items[key].marked && GetCall !in env.faults && StatusCall !in env.faults
    requires key in Pass(w, key, env).world.items && Pass(w, key, env).world.items[key].status.ready
    ensures
      var r := Resolve(w.items, InNameOrder(w.items[key].references), map[], env);
      && r.Values? && Resolved(w.items[key], r.values).Some?
      && var sub := Pass(w, key, env).world.sub;
         var obs := Observe(sub, key, Resolved(w.items[key], r.values).value);
         && Owned(sub, key) != {} && obs.ready && obs.upToDate
         && Pass(w, key, env).world.items[key].status == StatusOf(obs)
  {
    var r := Resolve(w.items, InNameOrder(w.items[key].references), map[], env);
    if r.Values? && Resolved(w.items[key], r.values).Some? {
      ReadyConverge(w.sub, key, Resolved(w.items[key], r.values).value, env);
    }
  }

  lemma ReadyConverge(sub: Substrate, key: Key, spec: Bytes, env: Env)
    requires Converge(sub, key, spec, env).status.ready
    ensures
      var c := Converge(sub, key, spec, env);
      var obs := Observe(c.sub, key, spec);
      Owned(c.sub, key) != {} && obs.ready && obs.upToDate && c.status == StatusOf(obs)
  {
  }

  lemma ConvergeKeepsSubOk(sub: Substrate, key: Key, spec: Bytes, env: Env)
    requires SubOk(sub) && env.id != [] && env.image != [] && env.driver != []
    ensures SubOk(Converge(sub, key, spec, env).sub)
  {
    ConvergeFrame(sub, key, spec, env);
    ConvergeSubstrate(sub, key, spec, env);
    DeleteElsewhere(sub, key, env);
    var removed := DeleteObject(sub, key, env).sub;
    assert SubComplete(removed);
    CreateKeepsComplete(sub, key, spec, env);
    CreateKeepsComplete(removed, key, spec, env);
  }

  ghost predicate SubComplete(sub: Substrate) {
    forall id | id in sub.objs :: Complete(id, sub.objs[id]) && (sub.objs[id].Network? <==> sub.objs[id].key.kind == NETWORK)
  }

  lemma CreateKeepsComplete(sub: Substrate, key: Key, spec: Bytes, env: Env)
    requires SubComplete(sub) && env.id != [] && env.image != [] && env.driver != []
    ensures SubComplete(CreateObject(sub, key, spec, env).sub)
  {
  }

  /** What holds before and after every smooth pass. */
  ghost predicate Good(w: World, rank: Key -> nat) {
    SubOk(w.sub) && Declared(w.items, rank)
  }

  lemma SameEntriesStayDeclared(items: Items, items': Items, rank: Key -> nat, key: Key)
    requires Declared(items, rank) && SameEntries(items, items', key) && (key in items ==> key in items')
    ensures Declared(items', rank) && items'.Keys == items.Keys
  {
  }

  lemma CleanPassIsGood(w: World, rank: Key -> nat, key: Key, env: Env)
    requires Good(w, rank) && Clean(w, env)
    ensures
      var w' := Pass(w, key, env).world;
      Good(w', rank) && Frame(w, w', key) && w'.items.Keys == w.items.Keys
  {
    PassElsewhere(w, key, env);
    if key in w.items {
      assert Entry(w.items, rank, key);
      FaultlessPass(w, key, env);
      var wanted := Wanted(w.items, key);
      if wanted.Some? {
        ConvergeKeepsSubOk(w.sub, key, wanted.value, env);
      }
    }
    SameEntriesStayDeclared(w.items, Pass(w, key, env).world.items, rank, key);
  }

  /** A settled key stays settled while passes are about other keys that are not its
      targets. */
  lemma SettledElsewhere(w: World, w': World, rank: Key -> nat, key: Key, other: Key)
    requires Good(w, rank) && Frame(w, w', key) && other != key && other in w.items && other in w'.items
    requires Settled(w, other)
    requires forall name | name in w.items[other].references :: w.items[other].references[name].target != key
    ensures Settled(w', other)
  {
    assert Entry(w.items, rank, other);
    forall name | name in w.items[other].references
      ensures var target := w.items[other].references[name].target;
              target in w'.items && w'.items[target].status == w.items[target].status
    {
      var target := w.items[other].references[name].target;
      assert target != key;
    }
    WantedReadsTargets(w.items, w'.items, other);
    OwnedElsewhere(w.sub, w'.sub, key, other);
    SingleOwned(w.sub, other, Only(w.sub, other));
    SingleOwned(w'.sub, other, Only(w'.sub, other));
  }

  /** A pass over a settled key changes nothing at all. */
  lemma SettledConvergeIsIdle(sub: Substrate, key: Key, spec: Bytes, env: Env)
    requires Managed(key) && env.faults == {} && Owned(sub, key) != {}
    requires Observe(sub, key, spec).upToDate && Observe(sub, key, spec).ready
    ensures Converge(sub, key, spec, env) == Converged(sub, StatusOf(Observe(sub, key, spec)), Passed)
  {
    assert Only(sub, key) in Owned(sub, key);
  }

  lemma SettledPassIsIdle(w: World, rank: Key -> nat, key: Key, env: Env)
    requires Good(w, rank) && env.faults == {} && key in w.items && Settled(w, key)
    ensures Pass(w, key, env) == PassResult(w, Passed)
  {
    assert Entry(w.items, rank, key);
    FaultlessPass(w, key, env);
    SettledConvergeIsIdle(w.sub, key, Wanted(w.items, key).value, env);
    SameStatusIsSame(w.items, key);
  }

  lemma SameStatusIsSame(items: Items, key: Key)
    requires key in items
    ensures Store.UpdateStatus(items, key, items[key].status) == items
  {
  }

  ghost predicate AllSettled(w: World, keys: set<Key>) {
    && (forall k | k in keys :: k in w.items && Settled(w, k))
    && (forall k | k in keys :: TargetsIn(w.items, keys, k))
  }

  lemma OwnStatusIsNotRead(items: Items, rank: Key -> nat, key: Key, status: Status)
    requires key in items && Entry(items, rank, key)
    ensures Wanted(Store.UpdateStatus(items, key, status), key) == Wanted(items, key)
  {
    WantedReadsTargets(items, Store.UpdateStatus(items, key, status), key);
  }

  /** A smooth pass over a key whose targets are settled settles it. */
  lemma PassSettles(w: World, rank: Key -> nat, keys: set<Key>, key: Key, env: Env)
    requires Good(w, rank) && AllSettled(w, keys) && Smooth(w, key, env)
    requires key in w.items && TargetsIn(w.items, keys, key)
    ensures key in Pass(w, key, env).world.items && Settled(Pass(w, key, env).world, key)
  {
    assert Entry(w.items, rank, key);
    WantedWhenTargetsSettled(w, rank, keys, key);
    FaultlessPass(w, key, env);
    var spec := Wanted(w.items, key).value;
    SmoothConverge(w.sub, key, spec, env);
    OwnStatusIsNotRead(w.items, rank, key, Converge(w.sub, key, spec, env).status);
  }

  /** ... and leaves every settled key settled. */
  lemma PassKeepsSettled(w: World, rank: Key -> nat, keys: set<Key>, key: Key, env: Env)
    requires Good(w, rank) && AllSettled(w, keys) && Clean(w, env)
    ensures AllSettled(Pass(w, key, env).world, keys)
  {
    CleanPassIsGood(w, rank, key, env);
    var w' := Pass(w, key, env).world;
    if key in keys {
      SettledPassIsIdle(w, rank, key, env);
    } else {
      forall k | k in keys ensures k in w'.items && Settled(w', k) && TargetsIn(w'.items, keys, k) {
        assert TargetsIn(w.items, keys, k);
        SettledElsewhere(w, w', rank, key, k);
      }
    }
  }

  // Rounds.

  datatype Visit = Visit(key: Key, env: Env)

  ghost function After(w: World, v: Visit): World {
    Pass(w, v.key, v.env).world
  }

  ghost function Round(w: World, visits: seq<Visit>): World
    decreases |visits|
  {
    if visits == [] then w else Round(After(w, visits[0]), visits[1..])
  }

  ghost predicate SmoothRound(w: World, visits: seq<Visit>)
    decreases |visits|
  {
    visits == [] || (Smooth(w, visits[0].key, visits[0].env) && SmoothRound(After(w, visits[0]), visits[1..]))
  }

  predicate Visits(visits: seq<Visit>, key: Key) {
    exists v :: v in visits && v.key == key
  }

  predicate Once(visits: seq<Visit>) {
    forall i, j | 0 <= i < j < |visits| :: visits[i].key != visits[j].key
  }

  /** Each key is visited once, in any order. */
  ghost predicate Full(visits: seq<Visit>, keys: set<Key>) {
    Once(visits) && forall key | key in keys :: Visits(visits, key)
  }

  /** How many passes over `key` change the substrate. */
  ghost function Mutations(w: World, visits: seq<Visit>, key: Key): nat
    decreases |visits|
  {
    if visits == [] then 0
    else (if visits[0].key == key && After(w, visits[0]).sub != w.sub then 1 else 0) + Mutations(After(w, visits[0]), visits[1..], key)
  }

  ghost function Grown(w: World, keys: set<Key>, key: Key): set<Key> {
    if key in w.items && TargetsIn(w.items, keys, key) then keys + {key} else keys
  }

  /** The Spec and References of every entry. */
  ghost predicate SameConfig(items: Items, items': Items) {
    && items'.Keys == items.Keys
    && forall k | k in items :: items'[k].references == items[k].references && items'[k].spec == items[k].spec
  }

  lemma FrameKeepsConfig(w: World, w': World, key: Key)
    requires Frame(w, w', key) && w'.items.Keys == w.items.Keys
    ensures SameConfig(w.items, w'.items)
  {
  }

  lemma VisitSettles(w: World, rank: Key -> nat, keys: set<Key>, v: Visit)
    requires Good(w, rank) && AllSettled(w, keys) && Smooth(w, v.key, v.env)
    ensures
      var w' := After(w, v);
      Good(w', rank) && SameConfig(w.items, w'.items) && AllSettled(w', Grown(w, keys, v.key))
  {
    CleanPassIsGood(w, rank, v.key, v.env);
    FrameKeepsConfig(w, After(w, v), v.key);
    PassKeepsSettled(w, rank, keys, v.key, v.env);
    if v.key in w.items && TargetsIn(w.items, keys, v.key) {
      PassSettles(w, rank, keys, v.key, v.env);
      GrownSettled(w, After(w, v), keys, v.key);
    }
  }

  lemma GrownSettled(w: World, w': World, keys: set<Key>, key: Key)
    requires AllSettled(w', keys) && SameEntries(w.items, w'.items, key) && key in w.items && TargetsIn(w.items, keys, key)
    requires key in w'.items && Settled(w', key)
    ensures AllSettled(w', keys + {key})
  {
    forall k | k in keys + {key} ensures TargetsIn(w'.items, keys + {key}, k) {
      assert k in keys ==> TargetsIn(w'.items, keys, k);
      assert w'.items[key].references == w.items[key].references;
    }
  }

  /** The settled keys, and those with settled targets that were visited. */
  ghost predicate RoundDone(w: World, w': World, keys: set<Key>, visits: seq<Visit>) {
    && AllSettled(w', keys) && SameConfig(w.items, w'.items)
    && forall key | key in w.items && Visits(visits, key) && TargetsIn(w.items, keys, key) :: Settled(w', key)
  }

  lemma RoundDoneCons(w: World, w1: World, w': World, keys: set<Key>, visits: seq<Visit>)
    requires visits != [] && SameConfig(w.items, w1.items)
    requires RoundDone(w1, w', Grown(w, keys, visits[0].key), visits[1..]) && AllSettled(w', keys)
    ensures RoundDone(w, w', keys, visits)
  {
  }

  lemma FewerSettled(w: World, keys: set<Key>, more: set<Key>, items: Items)
    requires keys <= more && AllSettled(w, more) && SameConfig(items, w.items)
    requires forall k | k in keys :: k in items && TargetsIn(items, keys, k)
    ensures AllSettled(w, keys)
  {
  }

  lemma {:induction false} RoundSettles(w: World, rank: Key -> nat, keys: set<Key>, visits: seq<Visit>)
    requires Good(w, rank) && AllSettled(w, keys) && SmoothRound(w, visits)
    ensures Good(Round(w, visits), rank) && RoundDone(w, Round(w, visits), keys, visits)
    decreases |visits|
  {
    if visits != [] {
      var w1 := After(w, visits[0]);
      VisitSettles(w, rank, keys, visits[0]);
      RoundSettles(w1, rank, Grown(w, keys, visits[0].key), visits[1..]);
      FewerSettled(Round(w, visits), keys, Grown(w, keys, visits[0].key), w.items);
      RoundDoneCons(w, w1, Round(w, visits), keys, visits);
    }
  }

  lemma VisitsUnfold(visits: seq<Visit>)
    requires visits != []
    ensures forall key :: Visits(visits, key) <==> visits[0].key == key || Visits(visits[1..], key)
  {
  }

  lemma {:induction false} NotVisitedNotMutated(w: World, visits: seq<Visit>, key: Key)
    requires !Visits(visits, key)
    ensures Mutations(w, visits, key) == 0
    decreases |visits|
  {
    if visits != [] {
      VisitsUnfold(visits);
      NotVisitedNotMutated(After(w, visits[0]), visits[1..], key);
    }
  }

  lemma OnceTail(visits: seq<Visit>)
    requires visits != [] && Once(visits)
    ensures Once(visits[1..]) && !Visits(visits[1..], visits[0].key)
  {
  }

  /** A round changes the substrate for a key at most once, and not if it is settled. */
  lemma {:induction false} RoundMutations(w: World, rank: Key -> nat, keys: set<Key>, visits: seq<Visit>, key: Key)
    requires Good(w, rank) && AllSettled(w, keys) && SmoothRound(w, visits) && Once(visits)
    ensures Mutations(w, visits, key) <= if key in keys then 0 else 1
    decreases |visits|
  {
    if visits != [] {
      var v := visits[0];
      OnceTail(visits);
      VisitSettles(w, rank, keys, v);
      if v.key == key {
        NotVisitedNotMutated(After(w, v), visits[1..], key);
        if key in keys {
          SettledPassIsIdle(w, rank, key, v.env);
        }
      } else {
        RoundMutations(After(w, v), rank, Grown(w, keys, v.key), visits[1..], key);
      }
    }
  }

  ghost function Rounds(w: World, rounds: seq<seq<Visit>>): World
    decreases |rounds|
  {
    if rounds == [] then w else Rounds(Round(w, rounds[0]), rounds[1..])
  }

  ghost predicate SmoothRounds(w: World, rounds: seq<seq<Visit>>)
    decreases |rounds|
  {
    rounds == [] ||
    (SmoothRound(w, rounds[0]) && Full(rounds[0], w.items.Keys) && SmoothRounds(Round(w, rounds[0]), rounds[1..]))
  }

  ghost function TotalMutations(w: World, rounds: seq<seq<Visit>>, key: Key): nat
    decreases |rounds|
  {
    if rounds == [] then 0
    else Mutations(w, rounds[0], key) + TotalMutations(Round(w, rounds[0]), rounds[1..], key)
  }

  ghost function Below(items: Items, rank: Key -> nat, n: nat): set<Key> {
    set key | key in items && rank(key) < n
  }

  lemma RoundRaisesBelow(w: World, rank: Key -> nat, n: nat, visits: seq<Visit>)
    requires Good(w, rank) && AllSettled(w, Below(w.items, rank, n)) && SmoothRound(w, visits) && Full(visits, w.items.Keys)
    ensures
      var w' := Round(w, visits);
      Good(w', rank) && SameConfig(w.items, w'.items) && AllSettled(w', Below(w'.items, rank, n + 1))
  {
    var keys := Below(w.items, rank, n);
    RoundSettles(w, rank, keys, visits);
    LevelSettled(w, Round(w, visits), rank, n, visits);
  }

  lemma LevelSettled(w: World, w': World, rank: Key -> nat, n: nat, visits: seq<Visit>)
    requires Declared(w.items, rank) && Declared(w'.items, rank) && Full(visits, w.items.Keys)
    requires RoundDone(w, w', Below(w.items, rank, n), visits)
    ensures AllSettled(w', Below(w'.items, rank, n + 1))
  {
  }

  lemma {:induction false} RoundsSettle(w: World, rank: Key -> nat, n: nat, rounds: seq<seq<Visit>>)
    requires Good(w, rank) && AllSettled(w, Below(w.items, rank, n)) && SmoothRounds(w, rounds)
    ensures
      var w' := Rounds(w, rounds);
      Good(w', rank) && SameConfig(w.items, w'.items) && AllSettled(w', Below(w'.items, rank, n + |rounds|))
    decreases |rounds|
  {
    if rounds != [] {
      RoundRaisesBelow(w, rank, n, rounds[0]);
      RoundsSettle(Round(w, rounds[0]), rank, n + 1, rounds[1..]);
    }
  }

  lemma {:induction false} RoundsMutate(w: World, rank: Key -> nat, n: nat, rounds: seq<seq<Visit>>, key: Key)
    requires Good(w, rank) && AllSettled(w, Below(w.items, rank, n)) && SmoothRounds(w, rounds) && key in w.items
    ensures TotalMutations(w, rounds, key) <= if rank(key) < n then 0 else rank(key) + 1 - n
    decreases |rounds|
  {
    if rounds != [] {
      RoundMutations(w, rank, Below(w.items, rank, n), rounds[0], key);
      RoundRaisesBelow(w, rank, n, rounds[0]);
      RoundsMutate(Round(w, rounds[0]), rank, n + 1, rounds[1..], key);
    }
  }

  /** A resource of reference depth r is Ready after r + 1 rounds, whatever the order
      of each round, and its object is changed by at most r + 1 passes in all. */
  lemma BoundedConvergence(w: World, rank: Key -> nat, rounds: seq<seq<Visit>>, key: Key)
    requires Good(w, rank) && SmoothRounds(w, rounds) && key in w.items
    ensures key in Rounds(w, rounds).items
    ensures rank(key) < |rounds| ==>
              && Rounds(w, rounds).items[key].status.phase == Ready && Rounds(w, rounds).items[key].status.ready
              && Settled(Rounds(w, rounds), key)
    ensures TotalMutations(w, rounds, key) <= rank(key) + 1
  {
    assert Below(w.items, rank, 0) == {};
    RoundsSettle(w, rank, 0, rounds);
    RoundsMutate(w, rank, 0, rounds, key);
    var w' := Rounds(w, rounds);
    if rank(key) < |rounds| {
      assert key in Below(w'.items, rank, |rounds|);
    }
  }

  /** Once every resource has settled, fault-free passes change nothing whatever. */
  lemma {:induction false} SettledRoundIsIdle(w: World, rank: Key -> nat, visits: seq<Visit>)
    requires Good(w, rank) && AllSettled(w, w.items.Keys) && forall v | v in visits :: v.env.faults == {}
    ensures Round(w, visits) == w
    decreases |visits|
  {
    if visits != [] {
      assert visits[0] in visits;
      if visits[0].key in w.items {
        SettledPassIsIdle(w, rank, visits[0].key, visits[0].env);
      }
      SettledRoundIsIdle(w, rank, visits[1..]);
    }
  }

  /** So rounds beyond the deepest resource are idle. */
  lemma LaterRoundsAreIdle(w: World, rank: Key -> nat, rounds: seq<seq<Visit>>, later: seq<Visit>)
    requires Good(w, rank) && SmoothRounds(w, rounds) && forall key | key in w.items :: rank(key) < |rounds|
    requires forall v | v in later :: v.env.faults == {}
    ensures Round(Rounds(w, rounds), later) == Rounds(w, rounds)
  {
    assert Below(w.items, rank, 0) == {};
    RoundsSettle(w, rank, 0, rounds);
    var w' := Rounds(w, rounds);
    assert Below(w'.items, rank, |rounds|) == w'.items.Keys;
    SettledRoundIsIdle(w', rank, later);
  }

  // Where everything runs and networks are fixed, smoothness is no assumption.

  ghost predicate NetworksFixed(items: Items) {
    forall key | key in items && key.kind == NETWORK :: items[key].references == map[]
  }

  /** Every object runs, and every network is of its entry's Spec. */
  ghost predicate Tidy(w: World) {
    forall id | id in w.sub.objs :: TidyObject(w.items, w.sub.objs[id])
  }

  ghost predicate TidyObject(items: Items, obj: Obj) {
    && Healthy(obj)
    && (obj.Network? ==> obj.key in items && items[obj.key].references == map[] && obj.hash == SpecHash(items[obj.key].spec))
  }

  lemma FixedNetworkIsWanted(items: Items, key: Key)
    requires key in items && items[key].references == map[]
    ensures Wanted(items, key) == Some(items[key].spec)
  {
  }

  lemma TidyIsSmooth(w: World, key: Key, env: Env)
    requires Tidy(w) && Clean(w, env)
    ensures Smooth(w, key, env)
  {
  }

  lemma TidyConverge(items: Items, sub: Substrate, key: Key, spec: Bytes, env: Env)
    requires Tidy(World(items, sub)) && key in items && Single(sub) && env.faults == {}
    requires key.kind == NETWORK ==> items[key].references == map[] && spec == items[key].spec
    ensures Tidy(World(items, Converge(sub, key, spec, env).sub))
  {
    ConvergeSubstrate(sub, key, spec, env);
    DeleteElsewhere(sub, key, env);
    var removed := DeleteObject(sub, key, env).sub;
    forall id | id in removed.objs ensures TidyObject(items, removed.objs[id]) {
      assert TidyObject(items, sub.objs[id]);
    }
    TidyCreate(items, sub, key, spec, env);
    TidyCreate(items, removed, key, spec, env);
  }

  lemma TidyCreate(items: Items, sub: Substrate, key: Key, spec: Bytes, env: Env)
    requires Tidy(World(items, sub)) && key in items && env.faults == {}
    requires key.kind == NETWORK ==> items[key].references == map[] && spec == items[key].spec
    ensures Tidy(World(items, CreateObject(sub, key, spec, env).sub))
  {
  }

  lemma SameConfigStaysTidy(items: Items, w: World)
    requires Tidy(World(items, w.sub)) && SameConfig(items, w.items)
    ensures Tidy(w)
  {
  }

  lemma CleanPassStaysTidy(w: World, rank: Key -> nat, key: Key, env: Env)
    requires Good(w, rank) && Tidy(w) && NetworksFixed(w.items) && Clean(w, env)
    ensures Tidy(Pass(w, key, env).world)
  {
    CleanPassIsGood(w, rank, key, env);
    FrameKeepsConfig(w, Pass(w, key, env).world, key);
    if key in w.items {
      assert Entry(w.items, rank, key);
      FaultlessPass(w, key, env);
      if key.kind == NETWORK {
        FixedNetworkIsWanted(w.items, key);
      }
      if Wanted(w.items, key).Some? {
        TidyConverge(w.items, w.sub, key, Wanted(w.items, key).value, env);
      }
      SameConfigStaysTidy(w.items, Pass(w, key, env).world);
    }
  }

  ghost predicate CleanRound(w: World, visits: seq<Visit>)
    decreases |visits|
  {
    visits == [] || (Clean(w, visits[0].env) && CleanRound(After(w, visits[0]), visits[1..]))
  }

  ghost predicate CleanRounds(w: World, rounds: seq<seq<Visit>>)
    decreases |rounds|
  {
    rounds == [] ||
    (CleanRound(w, rounds[0]) && Full(rounds[0], w.items.Keys) && CleanRounds(Round(w, rounds[0]), rounds[1..]))
  }

  ghost predicate Calm(w: World, rank: Key -> nat) {
    Good(w, rank) && Tidy(w) && NetworksFixed(w.items)
  }

  lemma CalmPass(w: World, rank: Key -> nat, v: Visit)
    requires Calm(w, rank) && Clean(w, v.env)
    ensures Calm(After(w, v), rank) && Smooth(w, v.key, v.env)
  {
    CleanPassIsGood(w, rank, v.key, v.env);
    CleanPassStaysTidy(w, rank, v.key, v.env);
    FrameKeepsConfig(w, After(w, v), v.key);
    TidyIsSmooth(w, v.key, v.env);
  }

  lemma {:induction false} CalmRound(w: World, rank: Key -> nat, visits: seq<Visit>)
    requires Calm(w, rank) && CleanRound(w, visits)
    ensures Calm(Round(w, visits), rank) && SmoothRound(w, visits)
    decreases |visits|
  {
    if visits != [] {
      CalmPass(w, rank, visits[0]);
      CalmRound(After(w, visits[0]), rank, visits[1..]);
    }
  }

  lemma {:induction false} CalmRounds(w: World, rank: Key -> nat, rounds: seq<seq<Visit>>)
    requires Calm(w, rank) && CleanRounds(w, rounds)
    ensures SmoothRounds(w, rounds)
    decreases |rounds|
  {
    if rounds != [] {
      CalmRound(w, rank, rounds[0]);
      CalmRounds(Round(w, rounds[0]), rank, rounds[1..]);
    }
  }

  /** Where every object runs and every network is of its entry's Spec, as when there is
      none at all, and networks reference nothing, fault-free passes converge any acyclic
      configuration. */
  lemma ConvergesWhenTidy(w: World, rank: Key -> nat, rounds: seq<seq<Visit>>, key: Key)
    requires Calm(w, rank) && CleanRounds(w, rounds) && key in w.items && rank(key) < |rounds|
    ensures key in Rounds(w, rounds).items && Rounds(w, rounds).items[key].status.ready
    ensures TotalMutations(w, rounds, key) <= rank(key) + 1
  {
    CalmRounds(w, rank, rounds);
    BoundedConvergence(w, rank, rounds, key);
  }

  lemma NothingIsTidy(w: World, rank: Key -> nat)
    requires w.sub.objs == map[] && Declared(w.items, rank) && NetworksFixed(w.items)
    ensures Calm(w, rank)
  {
  }

  // Such rounds can always be made.

  lemma {:induction false} FreshId(used: set<ObjId>) returns (id: ObjId)
    ensures id != [] && id !in used && forall other | other in used :: |other| < |id|
    decreases |used|
  {
    if used == {} {
      id := "a";
    } else {
      var other :| other in used;
      id := FreshId(used - {other});
      if |id| <= |other| {
        id := other + "a";
      }
    }
  }

  lemma FreshVisit(w: World, key: Key) returns (v: Visit)
    ensures v.key == key && Clean(w, v.env)
  {
    var id := FreshId(w.sub.issued);
    v := Visit(key, Env({}, id, "image", "", "bridge"));
  }

  lemma {:induction false} CleanRoundExists(w: World, keys: set<Key>) returns (visits: seq<Visit>)
    ensures CleanRound(w, visits) && Full(visits, keys) && forall v | v in visits :: v.key in keys
    decreases |keys|
  {
    visits := [];
    if keys != {} {
      var key :| key in keys;
      var v := FreshVisit(w, key);
      var rest := CleanRoundExists(After(w, v), keys - {key});
      visits := [v] + rest;
      assert visits[0] == v && visits[1..] == rest;
      FullCons(v, rest, keys);
    }
  }

  lemma FullCons(v: Visit, rest: seq<Visit>, keys: set<Key>)
    requires Full(rest, keys - {v.key}) && v.key in keys && forall u | u in rest :: u.key in keys - {v.key}
    ensures Full([v] + rest, keys) && forall u | u in [v] + rest :: u.key in keys
  {
    assert v in [v] + rest;
    forall k | k in keys && k != v.key ensures Visits([v] + rest, k) {
      assert Visits(rest, k);
    }
  }

  lemma {:induction false} CleanRoundsExist(w: World, n: nat) returns (rounds: seq<seq<Visit>>)
    ensures |rounds| == n && CleanRounds(w, rounds)
    decreases n
  {
    rounds := [];
    if n > 0 {
      var visits := CleanRoundExists(w, w.items.Keys);
      var rest := CleanRoundsExist(Round(w, visits), n - 1);
      rounds := [visits] + rest;
      assert rounds[0] == visits && rounds[1..] == rest;
    }
  }

  /** From every calm world some rounds of fault-free passes bring everything to Ready. */
  lemma ConvergenceIsPossible(w: World, rank: Key -> nat, n: nat)
    requires Calm(w, rank) && forall key | key in w.items :: rank(key) < n
    ensures exists rounds: seq<seq<Visit>> ::
              && |rounds| == n && CleanRounds(w, rounds)
              && forall key | key in w.items :: key in Rounds(w, rounds).items && Rounds(w, rounds).items[key].status.ready
  {
    var rounds := CleanRoundsExist(w, n);
    forall key | key in w.items ensures key in Rounds(w, rounds).items && Rounds(w, rounds).items[key].status.ready {
      ConvergesWhenTidy(w, rank, rounds, key);
    }
  }
}
