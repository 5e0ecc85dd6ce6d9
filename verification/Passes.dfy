/** One whole pass over a resource (core/reconcile/reconciler.go:166-380) as a function
    of the store, the substrate and what the environment answers. */
module Passes {
  import opened Model
  import opened Engine
  import opened System
  import opened Ordered
  import Store

  datatype World = World(items: Items, sub: Substrate)

  /** The calls of a pass that can fail. */
  datatype Call =
    | GetCall
    | ResolveCall(name: Bytes)
    | ObserveCall
    | ListCall
    | RemoveCall(id: ObjId)
    | CreateCall
    | StartCall
    | ReobserveCall
    | StatusCall
    | EraseCall

  /** What the environment answers during one pass: which calls fail, the id a created
      object gets, and what the Spec decodes to. */
  datatype Env = Env(faults: set<Call>, id: ObjId, image: Bytes, network: Bytes, driver: Bytes)

  datatype PassResult = PassResult(world: World, outcome: Outcome)

  predicate Fresh(sub: Substrate, id: ObjId) {
    id != [] && id !in sub.issued
  }

  /** No key owns two objects, as in every reachable state. */
  ghost predicate Single(sub: Substrate) {
    forall i, j | i in sub.objs && j in sub.objs :: sub.objs[i].key == sub.objs[j].key ==> i == j
  }

  /** The object of a key, when it has one. */
  ghost function Only(sub: Substrate, key: Key): (id: ObjId)
    requires Owned(sub, key) != {}
    ensures id in Owned(sub, key)
  {
    var id :| id in Owned(sub, key); id
  }

  ghost function Observe(sub: Substrate, key: Key, spec: Bytes): Observation {
    if Owned(sub, key) == {} then ABSENT else Seen(Only(sub, key), sub.objs[Only(sub, key)], spec)
  }

  datatype CallResult = Done(sub: Substrate, ok: bool)

  ghost function DeleteObject(sub: Substrate, key: Key, env: Env): CallResult {
    if ListCall in env.faults then Done(sub, false)
    else if Owned(sub, key) == {} then Done(sub, true)
    else if RemoveCall(Only(sub, key)) in env.faults || Refuses(sub, Only(sub, key)) then Done(sub, false)
    else Done(Remove(sub, {Only(sub, key)}), true)
  }

  function CreateObject(sub: Substrate, key: Key, spec: Bytes, env: Env): CallResult {
    if CreateCall in env.faults || !Fresh(sub, env.id) then Done(sub, false)
    else
      var made := Add(sub, env.id, NewObj(key, spec, env.image, env.network, env.driver));
      if key.kind == NETWORK then Done(made, true)
      else if StartCall in env.faults then Done(made, false)
      else Done(SetState(made, env.id, RUNNING), true)
  }

  /** Update is removal and creation; it stops where the first of them fails. */
  ghost function UpdateObject(sub: Substrate, key: Key, spec: Bytes, env: Env): CallResult {
    var removed := DeleteObject(sub, key, env);
    if removed.ok then CreateObject(removed.sub, key, spec, env) else removed
  }

  datatype Converged = Converged(sub: Substrate, status: Status, outcome: Outcome)

  /** The end of converge after a create or an update. */
  ghost function Settle(changed: CallResult, key: Key, spec: Bytes, env: Env): Converged {
    if !changed.ok then Converged(changed.sub, ERROR, Failed)
    else if ReobserveCall in env.faults then Converged(changed.sub, Status(Creating, false, CallFailed, map[]), Failed)
    else Converged(changed.sub, StatusOf(Observe(changed.sub, key, spec)), Passed)
  }

  ghost function Converge(sub: Substrate, key: Key, spec: Bytes, env: Env): Converged {
    if !Managed(key) then Converged(sub, Status(Error, false, NoProvider, map[]), Passed)
    else if ObserveCall in env.faults then Converged(sub, ERROR, Failed)
    else
      var obs := Observe(sub, key, spec);
      if !obs.exists_ then Settle(CreateObject(sub, key, spec, env), key, spec, env)
      else if !obs.upToDate then Settle(UpdateObject(sub, key, spec, env), key, spec, env)
      else Converged(sub, StatusOf(obs), Passed)
  }

  datatype Resolution = Values(values: map<Bytes, Bytes>) | Parked(why: Message) | Broken

  /** The loop of resolveReferences. */
  function Resolve(items: Items, todo: seq<Named>, values: map<Bytes, Bytes>, env: Env): Resolution
    decreases todo
  {
    if todo == [] then Values(values)
    else if ResolveCall(todo[0].name) in env.faults then Broken
    else
      var wait := Wait(items, todo[0].ref);
      if wait != NoMessage then Parked(wait)
      else Resolve(items, todo[1..], values[todo[0].name := items[todo[0].ref.target].status.observed[todo[0].ref.field]], env)
  }

  function SetStatus(items: Items, key: Key, status: Status, env: Env): Items {
    if StatusCall in env.faults then items else Store.UpdateStatus(items, key, status)
  }

  /** The Status of what converge returned goes to the store. */
  function Record(w: World, key: Key, c: Converged, env: Env): PassResult {
    PassResult(World(SetStatus(w.items, key, c.status, env), c.sub), c.outcome)
  }

  /** reconcile after resolveReferences. */
  ghost function AfterResolve(w: World, key: Key, snapshot: Resource, r: Resolution, env: Env): PassResult {
    match r
    case Broken => Record(w, key, Converged(w.sub, ERROR, Failed), env)
    case Parked(why) => Record(w, key, Converged(w.sub, Status(Pending, false, why, map[]), Again), env)
    case Values(values) =>
      match Resolved(snapshot, values)
      case None => Record(w, key, Converged(w.sub, ERROR, Failed), env)
      case Some(spec) => Record(w, key, Converge(w.sub, key, spec, env), env)
  }

  ghost function ConvergePass(w: World, key: Key, env: Env): PassResult
    requires key in w.items
  {
    AfterResolve(w, key, w.items[key], Resolve(w.items, InNameOrder(w.items[key].references), map[], env), env)
  }

  function ErasePass(w: World, key: Key, env: Env): PassResult {
    if EraseCall in env.faults then PassResult(w, Failed)
    else PassResult(w.(items := Store.Delete(w.items, key)), Passed)
  }

  /** reconcileDeletion after the provider's Delete. */
  function AfterDelete(w: World, key: Key, removed: CallResult, env: Env): PassResult {
    if removed.ok then Record(w, key, Converged(removed.sub, REMOVING, Again), env)
    else Record(w, key, Converged(removed.sub, DELETING, Failed), env)
  }

  ghost function DeletionPass(w: World, key: Key, env: Env): PassResult {
    if !Managed(key) then ErasePass(w, key, env)
    else if ObserveCall in env.faults then Record(w, key, Converged(w.sub, DELETING, Failed), env)
    else if Owned(w.sub, key) == {} then ErasePass(w, key, env)
    else AfterDelete(w, key, DeleteObject(w.sub, key, env), env)
  }

  ghost function Pass(w: World, key: Key, env: Env): PassResult {
    if GetCall in env.faults then PassResult(w, Failed)
    else if key !in w.items then PassResult(w, Passed)
    else if w.items[key].marked then DeletionPass(w, key, env)
    else ConvergePass(w, key, env)
  }
}
