/** The Docker providers as the reconciler calls them, over a mutable substrate
    (providers/docker/provider.go:77-181, providers/docker/network.go:53-128). */
module Provider {
  import opened Model
  import opened Engine
  import opened System
  import opened Passes
  import opened PassFrame
  import opened JsonText

  /** One object more, as the Spec decodes: a network with its driver, or a container with
      its image, on its network. */
  ghost predicate Created(before: Substrate, after: Substrate, key: Key, spec: Bytes, env: Env, state: Bytes) {
    && Fresh(before, env.id) && after.issued == before.issued + {env.id}
    && after.objs.Keys == before.objs.Keys + {env.id}
    && (forall id | id in before.objs && id != env.id :: after.objs[id] == before.objs[id])
    && after.objs[env.id].key == key && after.objs[env.id].hash == SpecHash(spec)
    && match after.objs[env.id]
       case Network(_, _, driver) => key.kind == "network" && driver == env.driver
       case Container(_, _, image, s, network) =>
         key.kind != "network" && image == env.image && network == env.network && s == state
  }

  /** A container created on a network that is there is attached to it: Docker refuses to
      remove the network from then on. */
  lemma CreatedIsAttached(before: Substrate, after: Substrate, key: Key, spec: Bytes, env: Env, state: Bytes, network: ObjId)
    requires Created(before, after, key, spec, env, state) && key.kind != "network" && network != env.id
    requires network in before.objs && before.objs[network].Network? && NamesNetwork(env.network, network, before.objs[network])
    ensures Attached(after.objs[env.id], network, after.objs[network]) && Refuses(after, network)
  {
    AttachedIff(after.objs[env.id], network, after.objs[network]);
  }

  class Docker {
    var sub: Substrate

    constructor ()
      ensures sub == Substrate.Substrate(map[], {})
    {
      sub := Substrate.Substrate(map[], {});
    }

    /** The owned objects of a key, in no particular order. */
    method List(key: Key) returns (ids: seq<ObjId>)
      ensures Listed(ids, Owned(sub, key))
    {
      ids := [];
      var rest := Owned(sub, key);
      while rest != {}
        invariant rest <= Owned(sub, key)
        invariant Listed(ids, Owned(sub, key) - rest)
        decreases |rest|
      {
        var id :| id in rest;
        rest := rest - {id};
        ids := ids + [id];
      }
    }

    /** Reports on the first object listed; with one object per key that is the one. */
    method Observe(key: Key, spec: Bytes) returns (obs: Observation)
      requires Single(sub)
      ensures obs == Passes.Observe(sub, key, spec)
      ensures obs.exists_ <==> Owned(sub, key) != {}
      ensures !obs.exists_ ==> obs == Observation(false, false, false, NoMessage, map[])
      ensures forall id | id in Owned(sub, key) :: ObservationOf(obs, id, sub.objs[id], spec)
    {
      var ids := List(key);
      if |ids| == 0 {
        assert Owned(sub, key) == {};
        return ABSENT;
      }
      assert ids[0] in Owned(sub, key);
      obs := Seen(ids[0], sub.objs[ids[0]], spec);
      SeenIsObservationOf(ids[0], sub.objs[ids[0]], spec);
      SingleOwned(sub, key, ids[0]);
    }

    /** Removes every listed object, or stops at the first that fails. Whatever
        happens, nothing else is touched; success leaves none. */
    method Delete(key: Key, env: Env) returns (ok: bool)
      modifies this
      ensures ok ==> sub == Remove(old(sub), Owned(old(sub), key)) && Owned(sub, key) == {}
      ensures !ok ==>
                && (ListCall in env.faults || exists id :: id in Owned(sub, key) && (RemoveCall(id) in env.faults || Refuses(sub, id)))
                && sub == Remove(old(sub), Owned(old(sub), key) - Owned(sub, key)) && Owned(sub, key) <= Owned(old(sub), key)
      ensures Single(old(sub)) ==> CallResult.Done(sub, ok) == DeleteObject(old(sub), key, env)
    {
      ghost var before := sub;
      if ListCall in env.faults {
        assert Remove(before, {}) == sub;
        return false;
      }
      var ids := List(key);
      ghost var gone: set<ObjId> := {};
      var i := 0;
      while i < |ids|
        invariant 0 <= i <= |ids|
        invariant sub == Remove(before, gone) && gone == Owned(before, key) - Owned(sub, key)
        invariant Owned(sub, key) <= Owned(before, key)
        invariant forall j | i <= j < |ids| :: ids[j] in Owned(sub, key)
        invariant forall id | id in Owned(sub, key) :: id in ids[i..]
        invariant i == 0 ==> sub == before
        invariant i > 0 ==> RemoveCall(ids[0]) !in env.faults && !Refuses(before, ids[0])
      {
        if RemoveCall(ids[i]) in env.faults || Refuses(sub, ids[i]) {
          SingleDeleteFails(before, sub, key, env, ids, i);
          return false;
        }
        RemoveOne(before, sub, key, gone, ids[i]);
        assert ids[i..] == [ids[i]] + ids[i + 1..];
        sub, gone := Remove(sub, {ids[i]}), gone + {ids[i]};
        i := i + 1;
      }
      assert Owned(sub, key) == {};
      SingleDeleteSucceeds(before, sub, key, env, ids);
      return true;
    }

    method Create(key: Key, spec: Bytes, env: Env) returns (ok: bool)
      modifies this
      ensures CallResult.Done(sub, ok) == CreateObject(old(sub), key, spec, env)
      ensures ok <==> CreateCall !in env.faults && Fresh(old(sub), env.id) && (key.kind == NETWORK || StartCall !in env.faults)
      ensures ok ==> Created(old(sub), sub, key, spec, env, "running")
      ensures !ok ==> sub == old(sub) || (key.kind != NETWORK && StartCall in env.faults && Created(old(sub), sub, key, spec, env, "created"))
    {
      if CreateCall in env.faults || env.id == [] || env.id in sub.issued {
        return false;
      }
      sub := Add(sub, env.id, NewObj(key, spec, env.image, env.network, env.driver));
      if key.kind == NETWORK {
        return true;
      }
      if StartCall in env.faults {
        return false;
      }
      sub := SetState(sub, env.id, RUNNING);
      return true;
    }

    method Update(key: Key, spec: Bytes, env: Env) returns (ok: bool)
      requires Single(sub)
      modifies this
      ensures CallResult.Done(sub, ok) == UpdateObject(old(sub), key, spec, env)
    {
      ok := Delete(key, env);
      if !ok {
        return;
      }
      ok := Create(key, spec, env);
    }
  }

  lemma RemoveOne(before: Substrate, sub: Substrate, key: Key, gone: set<ObjId>, id: ObjId)
    requires sub == Remove(before, gone) && id in Owned(sub, key)
    ensures Remove(sub, {id}) == Remove(before, gone + {id})
    ensures Owned(Remove(sub, {id}), key) == Owned(sub, key) - {id}
  {
  }

  lemma SingleDeleteSucceeds(before: Substrate, after: Substrate, key: Key, env: Env, ids: seq<ObjId>)
    requires Listed(ids, Owned(before, key)) && ListCall !in env.faults
    requires after == Remove(before, Owned(before, key))
    requires ids != [] ==> RemoveCall(ids[0]) !in env.faults && !Refuses(before, ids[0])
    ensures Single(before) ==> CallResult.Done(after, true) == DeleteObject(before, key, env)
  {
    if Owned(before, key) == {} {
      assert Remove(before, {}) == before;
    } else if Single(before) {
      assert Only(before, key) in ids && ids[0] in Owned(before, key);
      SingleOwned(before, key, ids[0]);
    }
  }

  lemma SingleDeleteFails(before: Substrate, after: Substrate, key: Key, env: Env, ids: seq<ObjId>, i: nat)
    requires Listed(ids, Owned(before, key)) && ListCall !in env.faults && i < |ids|
    requires i == 0 ==> after == before
    requires RemoveCall(ids[i]) in env.faults || Refuses(after, ids[i])
    ensures Single(before) ==> CallResult.Done(after, false) == DeleteObject(before, key, env)
  {
    if Single(before) {
      assert ids[i] in Owned(before, key) && ids[0] in Owned(before, key);
      SingleOwned(before, key, ids[i]);
      assert i == 0;
    }
  }
}
