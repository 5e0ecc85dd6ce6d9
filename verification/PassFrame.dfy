/** What a pass over one key leaves alone, whatever the environment answers. */
module PassFrame {
  import opened Model
  import opened Engine
  import opened System
  import opened Ordered
  import opened Passes
  import Store

  /** The objects of other keys. */
  ghost predicate SameObjects(sub: Substrate, sub': Substrate, key: Key) {
    && (forall id | id in sub.objs && sub.objs[id].key != key :: id in sub'.objs && sub'.objs[id] == sub.objs[id])
    && (forall id | id in sub'.objs && sub'.objs[id].key != key :: id in sub.objs && sub.objs[id] == sub'.objs[id])
  }

  /** The entries of other keys, and everything but the Status of this one. */
  ghost predicate SameEntries(items: Items, items': Items, key: Key) {
    && (forall k | k != key :: k in items <==> k in items')
    && (forall k | k != key && k in items :: items'[k] == items[k])
    && (key in items' ==> key in items && items'[key] == items[key].(status := items'[key].status))
  }

  ghost predicate Issued(sub: Substrate) {
    forall id | id in sub.objs :: id in sub.issued
  }

  lemma SingleOwned(sub: Substrate, key: Key, id: ObjId)
    requires Single(sub) && id in Owned(sub, key)
    ensures Owned(sub, key) == {id} && Only(sub, key) == id
  {
  }

  lemma CreateKeepsSingle(sub: Substrate, key: Key, spec: Bytes, env: Env)
    requires Single(sub) && Owned(sub, key) == {}
    ensures Single(CreateObject(sub, key, spec, env).sub)
  {
    forall id | id in sub.objs ensures sub.objs[id].key != key {
      assert id !in Owned(sub, key);
    }
  }

  lemma CreateElsewhere(sub: Substrate, key: Key, spec: Bytes, env: Env)
    requires Issued(sub)
    ensures
      var sub' := CreateObject(sub, key, spec, env).sub;
      SameObjects(sub, sub', key) && Issued(sub')
  {
  }

  lemma DeleteKeepsSingle(sub: Substrate, key: Key, env: Env)
    requires Single(sub)
    ensures Single(DeleteObject(sub, key, env).sub)
    ensures DeleteObject(sub, key, env).ok ==> Owned(DeleteObject(sub, key, env).sub, key) == {}
  {
  }

  lemma DeleteElsewhere(sub: Substrate, key: Key, env: Env)
    ensures
      var sub' := DeleteObject(sub, key, env).sub;
      && SameObjects(sub, sub', key) && (Issued(sub) ==> Issued(sub'))
      && (forall id | id in sub'.objs :: id in sub.objs && sub.objs[id] == sub'.objs[id])
  {
  }

  lemma UpdateKeepsSingle(sub: Substrate, key: Key, spec: Bytes, env: Env)
    requires Single(sub)
    ensures Single(UpdateObject(sub, key, spec, env).sub)
  {
    DeleteKeepsSingle(sub, key, env);
    var removed := DeleteObject(sub, key, env);
    if removed.ok {
      CreateKeepsSingle(removed.sub, key, spec, env);
    }
  }

  lemma ObjectsTransitive(a: Substrate, b: Substrate, c: Substrate, key: Key)
    requires SameObjects(a, b, key) && SameObjects(b, c, key)
    ensures SameObjects(a, c, key)
  {
  }

  lemma UpdateElsewhere(sub: Substrate, key: Key, spec: Bytes, env: Env)
    requires Issued(sub)
    ensures
      var sub' := UpdateObject(sub, key, spec, env).sub;
      SameObjects(sub, sub', key) && Issued(sub')
  {
    DeleteElsewhere(sub, key, env);
    var removed := DeleteObject(sub, key, env);
    CreateElsewhere(removed.sub, key, spec, env);
    ObjectsTransitive(sub, removed.sub, UpdateObject(sub, key, spec, env).sub, key);
  }

  lemma ConvergeSubstrate(sub: Substrate, key: Key, spec: Bytes, env: Env)
    ensures
      var sub' := Converge(sub, key, spec, env).sub;
      || sub' == sub
      || (sub' == CreateObject(sub, key, spec, env).sub && Owned(sub, key) == {})
      || sub' == UpdateObject(sub, key, spec, env).sub
  {
  }

  lemma ConvergeFrame(sub: Substrate, key: Key, spec: Bytes, env: Env)
    requires Single(sub) && Issued(sub)
    ensures
      var sub' := Converge(sub, key, spec, env).sub;
      SameObjects(sub, sub', key) && Single(sub') && Issued(sub')
  {
    ConvergeSubstrate(sub, key, spec, env);
    if Owned(sub, key) == {} {
      CreateKeepsSingle(sub, key, spec, env);
    }
    CreateElsewhere(sub, key, spec, env);
    UpdateKeepsSingle(sub, key, spec, env);
    UpdateElsewhere(sub, key, spec, env);
  }

  lemma SetStatusFrame(items: Items, key: Key, status: Status, env: Env)
    ensures SameEntries(items, SetStatus(items, key, status, env), key)
    ensures SetStatus(items, key, status, env).Keys == items.Keys
  {
  }

  ghost predicate Frame(w: World, w': World, key: Key) {
    && SameObjects(w.sub, w'.sub, key) && SameEntries(w.items, w'.items, key)
    && Single(w'.sub) && Issued(w'.sub)
  }

  lemma ConvergePassFrame(w: World, key: Key, env: Env)
    requires key in w.items && Single(w.sub) && Issued(w.sub)
    ensures Frame(w, ConvergePass(w, key, env).world, key)
    ensures ConvergePass(w, key, env).world.items.Keys == w.items.Keys
  {
    var snapshot := w.items[key];
    match Resolve(w.items, InNameOrder(snapshot.references), map[], env)
    case Broken => SetStatusFrame(w.items, key, ERROR, env);
    case Parked(why) => SetStatusFrame(w.items, key, Status(Pending, false, why, map[]), env);
    case Values(values) =>
      match Resolved(snapshot, values)
      case None => SetStatusFrame(w.items, key, ERROR, env);
      case Some(spec) =>
        ConvergeFrame(w.sub, key, spec, env);
        SetStatusFrame(w.items, key, Converge(w.sub, key, spec, env).status, env);
  }

  lemma DeletionShape(w: World, key: Key, env: Env)
    requires key in w.items
    ensures
      var w' := DeletionPass(w, key, env).world;
      && (w'.sub == w.sub || w'.sub == DeleteObject(w.sub, key, env).sub)
      && (w'.items == w.items || w'.items == Store.Delete(w.items, key)
          || w'.items == SetStatus(w.items, key, DELETING, env) || w'.items == SetStatus(w.items, key, REMOVING, env))
  {
  }

  lemma DeletionPassFrame(w: World, key: Key, env: Env)
    requires key in w.items && Single(w.sub) && Issued(w.sub)
    ensures Frame(w, DeletionPass(w, key, env).world, key)
    ensures forall id | id in DeletionPass(w, key, env).world.sub.objs :: id in w.sub.objs
  {
    DeletionShape(w, key, env);
    DeleteElsewhere(w.sub, key, env);
    DeleteKeepsSingle(w.sub, key, env);
    SetStatusFrame(w.items, key, REMOVING, env);
    SetStatusFrame(w.items, key, DELETING, env);
  }

  /** Whatever fails during a pass over `key`, the entries and objects of other keys
      stay as they are, the entry of `key` can only change its Status or go, and keys
      with one object at most stay so. */
  lemma PassElsewhere(w: World, key: Key, env: Env)
    requires Single(w.sub) && Issued(w.sub)
    ensures Frame(w, Pass(w, key, env).world, key)
    ensures key in w.items && !w.items[key].marked ==> key in Pass(w, key, env).world.items
  {
    if key in w.items {
      if w.items[key].marked {
        DeletionPassFrame(w, key, env);
      } else {
        ConvergePassFrame(w, key, env);
      }
    }
  }

  /** Owned objects of a key the pass is not about. */
  lemma OwnedElsewhere(sub: Substrate, sub': Substrate, key: Key, other: Key)
    requires SameObjects(sub, sub', key) && other != key
    ensures Owned(sub', other) == Owned(sub, other)
    ensures forall id | id in Owned(sub, other) :: sub'.objs[id] == sub.objs[id]
  {
  }
}
