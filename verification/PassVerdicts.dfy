/** What one pass means, from what it finds and which calls fail: the object, the Status
    and the outcome (core/reconcile/reconciler.go:163-380). */
module PassVerdicts {
  import opened Model
  import opened Engine
  import opened System
  import opened Ordered
  import opened JsonText
  import opened Passes
  import opened PassFrame
  import opened Admission
  import opened Provider
  import opened Tokens
  import opened Convergence
  import DocumentSubstitution

  /** The Status tells the key's object, and is Ready if it runs and matches the Spec. */
  ghost predicate StatusTells(status: Status, id: ObjId, obj: Obj, spec: Bytes) {
    && Tells(status.observed, id, obj)
    && (status.ready <==> obj.hash == SpecHash(spec) && (obj.Network? || obj.state == "running"))
    && status.phase == (if status.ready then Phase.Ready else Phase.Creating)
    && status.message == (if obj.hash != SpecHash(spec) then Stale else if !status.ready then NotRunning else NoMessage)
  }

  predicate HasProvider(kind: Bytes) {
    kind == "container" || kind == "network"
  }

  // converge.

  lemma StatusOfTells(obs: Observation, id: ObjId, obj: Obj, spec: Bytes)
    requires ObservationOf(obs, id, obj, spec)
    ensures StatusTells(StatusOf(obs), id, obj, spec)
  {
  }

  lemma ObserveTells(sub: Substrate, key: Key, spec: Bytes, id: ObjId)
    requires Owned(sub, key) == {id}
    ensures StatusTells(StatusOf(Observe(sub, key, spec)), id, sub.objs[id], spec)
    ensures Observe(sub, key, spec).exists_ && (Observe(sub, key, spec).upToDate <==> sub.objs[id].hash == SpecHash(spec))
  {
    assert Only(sub, key) in Owned(sub, key);
    SeenIsObservationOf(id, sub.objs[id], spec);
    StatusOfTells(Observe(sub, key, spec), id, sub.objs[id], spec);
  }

  /** Creation, when it succeeds, leaves the one object the Spec asks for, running. */
  lemma CreateMakes(sub: Substrate, key: Key, spec: Bytes, env: Env)
    requires Owned(sub, key) == {} && env.faults == {} && Fresh(sub, env.id)
    ensures
      var r := CreateObject(sub, key, spec, env);
      r.ok && Created(sub, r.sub, key, spec, env, "running") && Owned(r.sub, key) == {env.id}
  {
    forall id | id in sub.objs ensures sub.objs[id].key != key {
      assert id !in Owned(sub, key);
    }
  }

  lemma RemovedFirst(sub: Substrate, key: Key, id: ObjId, env: Env)
    requires Single(sub) && id in Owned(sub, key)
    ensures Only(sub, key) == id && Owned(sub, key) == {id} && Owned(Remove(sub, {id}), key) == {}
  {
    SingleOwned(sub, key, id);
  }

  /** With no failing call: an absent object is created; one that matches the Spec is left
      as it is, running or not; any other is replaced, unless it is a network in use. */
  lemma FaultFreeConverge(sub: Substrate, key: Key, spec: Bytes, env: Env)
    requires Single(sub) && env.faults == {} && Fresh(sub, env.id) && HasProvider(key.kind)
    ensures
      var c := Converge(sub, key, spec, env);
      && (Owned(sub, key) == {} ==>
            && Created(sub, c.sub, key, spec, env, "running") && Owned(c.sub, key) == {env.id}
            && StatusTells(c.status, env.id, c.sub.objs[env.id], spec) && c.outcome == Passed)
      && (forall id | id in Owned(sub, key) ::
            if sub.objs[id].hash == SpecHash(spec) then
              c.sub == sub && StatusTells(c.status, id, sub.objs[id], spec) && c.outcome == Passed
            else if Refuses(sub, id) then
              c.sub == sub && c.status == Status(Phase.Error, false, CallFailed, map[]) && c.outcome == Failed
            else
              && Created(Remove(sub, {id}), c.sub, key, spec, env, "running") && Owned(c.sub, key) == {env.id}
              && StatusTells(c.status, env.id, c.sub.objs[env.id], spec) && c.outcome == Passed)
  {
    if Owned(sub, key) == {} {
      CreateMakes(sub, key, spec, env);
      ObserveTells(Converge(sub, key, spec, env).sub, key, spec, env.id);
    } else {
      var id :| id in Owned(sub, key);
      RemovedFirst(sub, key, id, env);
      ObserveTells(sub, key, spec, id);
      if sub.objs[id].hash != SpecHash(spec) && !Refuses(sub, id) {
        CreateMakes(Remove(sub, {id}), key, spec, env);
        ObserveTells(CreateObject(Remove(sub, {id}), key, spec, env).sub, key, spec, env.id);
      }
    }
  }

  /** So a converge that succeeds with no failing call leaves the one object of the Spec, as
      its Status tells it. */
  lemma ConvergedIsTold(sub: Substrate, key: Key, spec: Bytes, env: Env)
    requires Single(sub) && env.faults == {} && Fresh(sub, env.id) && HasProvider(key.kind)
    requires Converge(sub, key, spec, env).outcome == Passed
    ensures
      var c := Converge(sub, key, spec, env);
      exists id :: Owned(c.sub, key) == {id} && c.sub.objs[id].hash == SpecHash(spec)
                   && StatusTells(c.status, id, c.sub.objs[id], spec)
  {
    FaultFreeConverge(sub, key, spec, env);
    if Owned(sub, key) != {} {
      var id :| id in Owned(sub, key);
      RemovedFirst(sub, key, id, env);
      assert Owned(Converge(sub, key, spec, env).sub, key) == {id} || Owned(Converge(sub, key, spec, env).sub, key) == {env.id};
    } else {
      assert Owned(Converge(sub, key, spec, env).sub, key) == {env.id};
    }
  }

  /** A kind without a provider gets an Error Status, and nothing to retry. */
  lemma OtherKindsAreLeft(sub: Substrate, key: Key, spec: Bytes, env: Env)
    requires !HasProvider(key.kind)
    ensures Converge(sub, key, spec, env) == Converged(sub, Status(Phase.Error, false, NoProvider, map[]), Passed)
  {
  }

  /** The key has no object that matches the Spec. */
  ghost predicate NeedsWork(sub: Substrate, key: Key, spec: Bytes) {
    forall id | id in Owned(sub, key) :: sub.objs[id].hash != SpecHash(spec)
  }

  ghost predicate RemovalFails(sub: Substrate, key: Key, faults: set<Call>) {
    exists id :: id in Owned(sub, key) && (ListCall in faults || RemoveCall(id) in faults || Refuses(sub, id))
  }

  predicate CreationFails(sub: Substrate, key: Key, env: Env) {
    CreateCall in env.faults || !Fresh(sub, env.id) || (key.kind == "container" && StartCall in env.faults)
  }

  /** converge fails exactly when a call it makes does; the Status then says Error, or
      Creating when all that failed is the look at what was created. */
  lemma ConvergeFailsIff(sub: Substrate, key: Key, spec: Bytes, env: Env)
    requires Single(sub) && HasProvider(key.kind)
    ensures
      var c := Converge(sub, key, spec, env);
      var works := NeedsWork(sub, key, spec);
      var changeFails := RemovalFails(sub, key, env.faults) || CreationFails(sub, key, env);
      && (c.outcome == Failed <==> ObserveCall in env.faults || (works && (changeFails || ReobserveCall in env.faults)))
      && (c.outcome != Failed ==> c.outcome == Passed)
      && (c.outcome == Failed ==>
            c.status == Status(if ObserveCall in env.faults || changeFails then Phase.Error else Phase.Creating, false, CallFailed, map[]))
  {
    if Owned(sub, key) != {} {
      var id :| id in Owned(sub, key);
      RemovedFirst(sub, key, id, env);
      ObserveTells(sub, key, spec, id);
    }
  }

  // The Spec a pass converges.

  lemma SplicedIsJson(items: Items, entry: Resource)
    requires Resolvable(items, entry.references) && ValidJson(entry.spec)
    ensures ValidJson(SplicedSpec(items, entry))
  {
    SubstitutionFillsHoles(entry.spec, ReportedValues(items, entry.references));
    DocumentSubstitution.SubstitutionPreservesJson(entry.spec, ReportedValues(items, entry.references));
  }

  /** The Spec the convergence results speak of is the spliced one, there exactly when the
      references can be read; of an accepted Spec it is the splice of its pieces. */
  lemma WantedIsSpliced(items: Items, key: Key)
    requires key in items && (items[key].references != map[] ==> ValidJson(items[key].spec))
    ensures Wanted(items, key).Some? <==> Resolvable(items, items[key].references)
    ensures Wanted(items, key).Some? ==>
              && Wanted(items, key).value == SplicedSpec(items, items[key])
              && (items[key].references == map[] ==> Wanted(items, key).value == items[key].spec)
              && (Closed(items[key].references, items[key].spec) ==>
                    SplicedBy(items[key].spec, ReportedValues(items, items[key].references), Wanted(items, key).value))
  {
    ResolvesIffResolvable(items, items[key].references, QUIET);
    if Resolvable(items, items[key].references) {
      ResolvedIsSpliced(items, items[key], QUIET);
      if items[key].references != map[] {
        SplicedIsJson(items, items[key]);
      }
      if Closed(items[key].references, items[key].spec) {
        AcceptedIsSpliced(items, items[key]);
      }
    }
  }

  /** A settled key has one object, which runs and carries the fingerprint of the spliced
      Spec, and the Status is Ready and tells that object. */
  lemma SettledMeans(w: World, key: Key)
    requires Single(w.sub) && key in w.items && Settled(w, key)
    requires w.items[key].references != map[] ==> ValidJson(w.items[key].spec)
    ensures Resolvable(w.items, w.items[key].references) && w.items[key].status.ready
    ensures exists id ::
              && Owned(w.sub, key) == {id} && w.sub.objs[id].hash == SpecHash(SplicedSpec(w.items, w.items[key]))
              && StatusTells(w.items[key].status, id, w.sub.objs[id], SplicedSpec(w.items, w.items[key]))
  {
    WantedIsSpliced(w.items, key);
    var id :| id in Owned(w.sub, key);
    RemovedFirst(w.sub, key, id, QUIET);
    ObserveTells(w.sub, key, SplicedSpec(w.items, w.items[key]), id);
  }

  /** A settled key carries the fields of its object and no others. */
  lemma SettledCarries(w: World, key: Key, field: Bytes)
    requires SubOk(w.sub) && key in w.items && Settled(w, key)
    ensures Wait(w.items, Reference(key, field)) == NoMessage <==>
              if key.kind == "network" then field == "networkId" || field == "driver"
              else field == "containerId" || field == "image" || field == "state"
    ensures Wait(w.items, Reference(key, field)) == NoMessage <==> Carries(key.kind, field)
  {
    var spec := Wanted(w.items, key).value;
    var id :| id in Owned(w.sub, key);
    RemovedFirst(w.sub, key, id, QUIET);
    ObserveTells(w.sub, key, spec, id);
    assert Complete(id, w.sub.objs[id]);
  }

  /** What a Ready network reports names it: a container created with that value is
      attached to it, and Docker no longer lets the network go. */
  lemma ReportedNetworkAttaches(w: World, network: Key, id: ObjId, spec: Bytes, after: Substrate, key: Key, containerSpec: Bytes, env: Env)
    requires network in w.items && id in w.sub.objs && w.sub.objs[id].Network?
    requires StatusTells(w.items[network].status, id, w.sub.objs[id], spec)
    requires key.kind == "container" && env.network == w.items[network].status.observed["networkId"]
    requires Created(w.sub, after, key, containerSpec, env, "running") && id in w.sub.issued
    ensures Attached(after.objs[env.id], id, after.objs[id]) && Refuses(after, id)
  {
    CreatedIsAttached(w.sub, after, key, containerSpec, env, "running", id);
  }

  // One pass over an unmarked entry.

  lemma AbsentIsForgotten(w: World, key: Key, env: Env)
    requires GetCall in env.faults || key !in w.items
    ensures Pass(w, key, env) == PassResult(w, if GetCall in env.faults then Failed else Passed)
  {
  }

  /** With no failing call: an entry whose references can be read is converged to its
      spliced Spec; any other waits for the first that cannot, and asks for another pass. */
  lemma UnmarkedPass(w: World, key: Key, env: Env)
    requires key in w.items && !w.items[key].marked && env.faults == {}
    requires w.items[key].references != map[] ==> ValidJson(w.items[key].spec)
    ensures
      var p := Pass(w, key, env);
      if Resolvable(w.items, w.items[key].references) then
        var c := Converge(w.sub, key, SplicedSpec(w.items, w.items[key]), env);
        p == PassResult(World(w.items[key := w.items[key].(status := c.status)], c.sub), c.outcome)
      else
        && p.world.sub == w.sub && p.outcome == Again
        && exists i: nat ::
             && FirstBlocked(w.items, InNameOrder(w.items[key].references), i)
             && p.world.items == w.items[key := w.items[key].(
                  status := Status(Phase.Pending, false, Wait(w.items, InNameOrder(w.items[key].references)[i].ref), map[]))]
  {
    var entry := w.items[key];
    var todo := InNameOrder(entry.references);
    ResolvesIffResolvable(w.items, entry.references, env);
    ResolutionVerdict(w.items, todo, map[], env);
    if Resolvable(w.items, entry.references) {
      ResolvedIsSpliced(w.items, entry, env);
      if entry.references != map[] {
        SplicedIsJson(w.items, entry);
      }
    }
  }

  /** What a fault-free pass can bring to Ready: no object, a running one that matches, or
      a stale one that is not a network in use. */
  ghost predicate Mendable(sub: Substrate, key: Key, spec: Bytes) {
    forall id | id in Owned(sub, key) ::
      if sub.objs[id].hash == SpecHash(spec) then sub.objs[id].Network? || sub.objs[id].state == "running"
      else !Refuses(sub, id)
  }

  /** End to end: a pass with no failing call over a container or network whose references
      can be read ends Ready exactly when it can; then the key has one object, which runs
      and carries the fingerprint of the spliced Spec, and the Status tells that object. */
  lemma FaultFreePass(w: World, key: Key, env: Env)
    requires Single(w.sub) && env.faults == {} && Fresh(w.sub, env.id)
    requires key in w.items && !w.items[key].marked && HasProvider(key.kind)
    requires Resolvable(w.items, w.items[key].references)
    requires w.items[key].references != map[] ==> ValidJson(w.items[key].spec)
    ensures
      var w', spec := Pass(w, key, env).world, SplicedSpec(w.items, w.items[key]);
      && key in w'.items && (w'.items[key].status.ready <==> Mendable(w.sub, key, spec))
      && (w'.items[key].status.ready ==>
            exists id :: Owned(w'.sub, key) == {id} && w'.sub.objs[id].hash == SpecHash(spec)
                         && StatusTells(w'.items[key].status, id, w'.sub.objs[id], spec))
  {
    var spec := SplicedSpec(w.items, w.items[key]);
    UnmarkedPass(w, key, env);
    FaultFreeConverge(w.sub, key, spec, env);
    var c := Converge(w.sub, key, spec, env);
    if Owned(w.sub, key) != {} {
      var id :| id in Owned(w.sub, key);
      RemovedFirst(w.sub, key, id, env);
      assert Owned(c.sub, key) == {id} || Owned(c.sub, key) == {env.id};
    } else {
      assert Owned(c.sub, key) == {env.id};
    }
  }

  /** A failing pass is never recorded as Ready, and an unmarked entry's failing pass is
      recorded as Error or Creating. */
  lemma FailureIsRecorded(w: World, key: Key, env: Env)
    requires Single(w.sub) && key in w.items && !w.items[key].marked
    requires GetCall !in env.faults && StatusCall !in env.faults && Pass(w, key, env).outcome == Failed
    ensures
      var w' := Pass(w, key, env).world;
      && key in w'.items && !w'.items[key].status.ready && w'.items[key].status.observed == map[]
      && (w'.items[key].status.phase == Phase.Error || (w'.items[key].status.phase == Phase.Creating && ReobserveCall in env.faults))
  {
    var entry := w.items[key];
    var r := Resolve(w.items, InNameOrder(entry.references), map[], env);
    if r.Values? && Resolved(entry, r.values).Some? && HasProvider(key.kind) {
      ConvergeFailsIff(w.sub, key, Resolved(entry, r.values).value, env);
    }
  }

  /** A Status that cannot be written changes nothing in the store; only erasing does. */
  lemma UnrecordedPass(w: World, key: Key, env: Env)
    requires StatusCall in env.faults
    ensures Pass(w, key, env).world.items == w.items || (key in w.items && Pass(w, key, env).world.items == w.items - {key})
  {
  }

  // One pass over a marked entry.

  /** Reconciling a deletion erases the entry, or starts a removal and asks for another
      pass, or fails: which one follows from what is there and what fails. References and
      Spec play no part, and an entry that stays always gets another pass. */
  lemma MarkedPass(w: World, key: Key, env: Env)
    requires Single(w.sub) && key in w.items && w.items[key].marked && GetCall !in env.faults
    ensures
      var p := Pass(w, key, env);
      var looks := HasProvider(key.kind);
      var present := looks && Owned(w.sub, key) != {};
      var blind := looks && ObserveCall in env.faults;
      && (p.outcome == Again <==> present && !blind && !RemovalFails(w.sub, key, env.faults))
      && (p.outcome == Passed <==> !present && !blind && EraseCall !in env.faults)
      && (p.outcome == Passed <==> key !in p.world.items)
  {
    if HasProvider(key.kind) && Owned(w.sub, key) != {} {
      var id :| id in Owned(w.sub, key);
      RemovedFirst(w.sub, key, id, env);
    }
  }

  /** What it leaves behind: the erased entry is the only change to the store apart from a
      Deleting Status, the removed object the only change to the substrate. */
  lemma MarkedPassLeaves(w: World, key: Key, env: Env)
    requires Single(w.sub) && key in w.items && w.items[key].marked && GetCall !in env.faults
    ensures
      var p := Pass(w, key, env);
      && (p.outcome == Passed ==> p.world == World(w.items - {key}, w.sub))
      && (p.outcome == Again ==>
            && p.world.sub == Remove(w.sub, Owned(w.sub, key)) && Owned(p.world.sub, key) == {}
            && (StatusCall !in env.faults ==>
                  p.world.items == w.items[key := w.items[key].(status := Status(Phase.Deleting, false, RemovingFromSubstrate, map[]))]))
      && (p.outcome == Failed ==>
            && p.world.sub == w.sub
            && (p.world.items == w.items
                || p.world.items == w.items[key := w.items[key].(status := Status(Phase.Deleting, false, CallFailed, map[]))]))
      && (p.outcome == Failed && StatusCall !in env.faults && HasProvider(key.kind) && (Owned(w.sub, key) != {} || ObserveCall in env.faults) ==>
            p.world.items[key].status == Status(Phase.Deleting, false, CallFailed, map[]))
  {
    if HasProvider(key.kind) && Owned(w.sub, key) != {} {
      var id :| id in Owned(w.sub, key);
      RemovedFirst(w.sub, key, id, env);
    }
  }
}
