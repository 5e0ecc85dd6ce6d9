/** The whole control plane as one concurrent system: users, server, resync loop,
    timers, worker pool, store and substrate. Each step is one mutex-protected
    operation or one substrate call; any interleaving is a run. */
module System {
  import opened Model
  import opened Queues
  import opened Backoff
  import opened Engine
  import Store
  import Tokens
  import JsonText
  import opened Ordered

  /** How a pass over a resource ended (core/reconcile/reconciler.go:166-211). */
  datatype Outcome = Passed | Again | Failed

  /** Where a worker stands (core/reconcile/reconciler.go:153-380). `update` holds the
      Spec to recreate from when a removal is the first half of an Update. */
  datatype Worker =
    | Idle
    | Held(key: Key)
    | Resolving(key: Key, snapshot: Resource, todo: seq<Named>, values: map<Bytes, Bytes>)
    | Observing(key: Key, spec: Bytes)
    | Listing(key: Key, update: Option<Bytes>)
    | Removing(key: Key, update: Option<Bytes>, ids: seq<ObjId>)
    | Making(key: Key, spec: Bytes)
    | Starting(key: Key, spec: Bytes, id: ObjId)
    | Reobserving(key: Key, spec: Bytes)
    | Examining(key: Key)
    | Erasing(key: Key)
    | Reporting(key: Key, status: Status, outcome: Outcome)
    | Failing(key: Key)
    | Arming(key: Key, failed: bool)
    | Forgetting(key: Key)
    | Releasing(key: Key)
    | Exited

  predicate Holds(w: Worker) {
    !w.Idle? && !w.Exited?
  }

  datatype Loop = Waiting | Sweeping | Enqueuing(todo: seq<Key>) | Stopped

  /** What happened so far; no step depends on it. */
  datatype History = History(
    written: map<Key, nat>,        // accepted writes per key
    seen: map<Key, nat>,           // of these, how many the latest pass to find the entry had before it
    condemned: set<Key>,           // a pass has read the deletion mark
    firstReady: seq<Key>,          // keys in the order of their first Ready
    created: set<Key>,             // keys some pass created an object for
    retry: set<Key>,               // the last pass asked for another
    log: map<Key, seq<Outcome>>,   // outcomes of the passes, oldest first
    sweepFailed: bool)             // the last List of the resync loop failed

  datatype Sys = Sys(
    items: Items,
    sub: Substrate,
    queue: Queue<Key>,
    fails: map<Key, nat>,
    timers: multiset<Key>,
    workers: seq<Worker>,
    loop: Loop,
    nudge: bool,
    owed: multiset<Key>,
    cancelled: bool,
    h: History)

  datatype Step =
    // Users and the server: the write, then the nudge.
    | UserPut(key: Key, spec: Bytes, references: map<Bytes, Reference>)
    | UserMark(key: Key)
    | ServerNudge(key: Key)
    // The resync loop.
    | Tick
    | TakeNudge
    | Sweep(order: seq<Key>)
    | SweepFails
    | EnqueueNext
    | LoopExits
    // Timers, shutdown, drift.
    | Fires(key: Key)
    | Cancel
    | CloseQueue
    | DriftRemoves(id: ObjId)
    | DriftState(id: ObjId, state: Bytes)
    // Worker w.
    | Takes(w: nat)
    | Exits(w: nat)
    | Acts(w: nat, act: Act)

  /** What a worker's operation answers; the worker's place says which it is. */
  datatype Act =
    | Succeeds
    | Finds(id: ObjId)                 // a list whose first entry is `id`
    | Lists(ids: seq<ObjId>)
    | Makes(id: ObjId, image: Bytes, network: Bytes, driver: Bytes)
    | Fails

  function Count(m: map<Key, nat>, key: Key): nat {
    if key in m then m[key] else 0
  }

  function Bump(m: map<Key, nat>, key: Key): map<Key, nat> {
    m[key := Count(m, key) + 1]
  }

  function Log(h: History, key: Key): seq<Outcome> {
    if key in h.log then h.log[key] else []
  }

  const ERROR := Status(Error, false, CallFailed, map[])
  const DELETING := Status(Deleting, false, CallFailed, map[])
  const REMOVING := Status(Deleting, false, RemovingFromSubstrate, map[])

  /** The Status converge derives from its last observation. */
  function StatusOf(obs: Observation): Status {
    var ready := obs.ready && obs.upToDate;
    Status(if ready then Ready else Creating, ready, obs.message, obs.details)
  }

  /** Why a reference cannot be resolved, or NoMessage if it can. */
  function Wait(items: Items, ref: Reference): Message {
    if ref.target !in items then NoSuchResource(ref.target)
    else
      var status := items[ref.target].status;
      if !status.ready then TargetNotReady(ref.target)
      else if ref.field !in status.observed || status.observed[ref.field] == [] then FieldNotSet(ref.target, ref.field)
      else NoMessage
  }

  function Move(s: Sys, w: nat, worker: Worker): Sys
    requires w < |s.workers|
  {
    s.(workers := s.workers[w := worker])
  }

  /** The pass is over: its outcome goes to the log, and the worker to what the
      outcome asks for. */
  function Conclude(s: Sys, w: nat, key: Key, outcome: Outcome): Sys
    requires w < |s.workers|
  {
    var next := match outcome
      case Passed => Forgetting(key)
      case Again => Arming(key, false)
      case Failed => Failing(key);
    Move(s, w, next).(h := s.h.(
      log := s.h.log[key := Log(s.h, key) + [outcome]],
      retry := if outcome == Passed then s.h.retry else s.h.retry + {key}))
  }

  /** process: read the resource and choose a path. */
  function Read(s: Sys, w: nat, key: Key, todo: seq<Named>): Sys
    requires w < |s.workers|
  {
    var begun := s.h.(retry := s.h.retry - {key});
    if key !in s.items then Conclude(s.(h := begun), w, key, Passed)
    else
      var h := begun.(seen := s.h.seen[key := Count(s.h.written, key)]);
      if s.items[key].marked then
        Move(s, w, if Managed(key) then Examining(key) else Erasing(key)).(h := h.(condemned := h.condemned + {key}))
      else Move(s, w, Resolving(key, s.items[key], todo, map[])).(h := h)
  }

  /** The Spec to converge once every reference has its value. With no references
      declared it is handed over as it is; otherwise the splice is checked. */
  function Resolved(snapshot: Resource, values: map<Bytes, Bytes>): Option<Bytes> {
    if snapshot.references == map[] then Some(snapshot.spec)
    else
      var spec := Tokens.SubstituteReferences(snapshot.spec, values);
      if JsonText.ValidJson(spec) then Some(spec) else None
  }

  /** converge begins, or the splice failed its check. */
  function BeginConverge(s: Sys, w: nat, key: Key, resolved: Option<Bytes>): Sys
    requires w < |s.workers|
  {
    match resolved
    case None => Move(s, w, Reporting(key, ERROR, Failed))
    case Some(spec) =>
      if Managed(key) then Move(s, w, Observing(key, spec))
      else Move(s, w, Reporting(key, Status(Error, false, NoProvider, map[]), Passed))
  }

  /** resolveReferences: one reference, or the substitution once all are resolved. */
  function ResolveNext(s: Sys, w: nat, key: Key, snapshot: Resource, todo: seq<Named>, values: map<Bytes, Bytes>): Sys
    requires w < |s.workers|
  {
    if todo == [] then BeginConverge(s, w, key, Resolved(snapshot, values))
    else
      var ref := todo[0].ref;
      var wait := Wait(s.items, ref);
      if wait == NoMessage then
        Move(s, w, Resolving(key, snapshot, todo[1..], values[todo[0].name := s.items[ref.target].status.observed[ref.field]]))
      else Move(s, w, Reporting(key, Status(Pending, false, wait, map[]), Again))
  }

  /** converge after its first Observe. */
  function Observed(s: Sys, w: nat, key: Key, spec: Bytes, obs: Observation): Sys
    requires w < |s.workers|
  {
    if !obs.exists_ then Move(s, w, Making(key, spec))
    else if !obs.upToDate then Move(s, w, Listing(key, Some(spec)))
    else Move(s, w, Reporting(key, StatusOf(obs), Passed))
  }

  function NoneLeft(s: Sys, w: nat, key: Key, update: Option<Bytes>): Sys
    requires w < |s.workers|
  {
    match update
    case Some(spec) => Move(s, w, Making(key, spec))
    case None => Move(s, w, Reporting(key, REMOVING, Again))
  }

  /** A removal that fails ends Update or Delete with its error. */
  function RemovalFails(s: Sys, w: nat, key: Key, update: Option<Bytes>): Sys
    requires w < |s.workers|
  {
    Move(s, w, Reporting(key, if update.Some? then ERROR else DELETING, Failed))
  }

  /** One removal. A network already gone is skipped, a container already gone is an
      error, and a network in use is refused. */
  function RemoveNext(s: Sys, w: nat, key: Key, update: Option<Bytes>, ids: seq<ObjId>): Sys
    requires w < |s.workers| && ids != []
  {
    if ids[0] !in s.sub.objs then
      if key.kind == NETWORK then Move(s, w, Removing(key, update, ids[1..])) else RemovalFails(s, w, key, update)
    else if Refuses(s.sub, ids[0]) then RemovalFails(s, w, key, update)
    else Move(s, w, Removing(key, update, ids[1..])).(sub := Remove(s.sub, {ids[0]}))
  }

  function Make(s: Sys, w: nat, key: Key, spec: Bytes, act: Act): Sys
    requires w < |s.workers| && act.Makes?
  {
    var obj := NewObj(key, spec, act.image, act.network, act.driver);
    Move(s, w, if obj.Container? then Starting(key, spec, act.id) else Reobserving(key, spec)).(
      sub := Add(s.sub, act.id, obj),
      h := s.h.(created := s.h.created + {key}))
  }

  /** setStatus, then the outcome. */
  function Report(s: Sys, w: nat, key: Key, status: Status, outcome: Outcome): Sys
    requires w < |s.workers|
  {
    var first := status.ready && key in s.items && key !in s.h.firstReady;
    Conclude(s.(items := Store.UpdateStatus(s.items, key, status),
                h := s.h.(firstReady := if first then s.h.firstReady + [key] else s.h.firstReady)),
             w, key, outcome)
  }

  ghost predicate Listed(ids: seq<ObjId>, owned: set<ObjId>) {
    Distinct(ids) && (forall id | id in ids :: id in owned) && (forall id | id in owned :: id in ids)
  }

  /** May worker w's operation answer `act`? */
  ghost predicate CanAct(s: Sys, w: nat, act: Act) {
    w < |s.workers| &&
    match s.workers[w]
    case Held(key) => act.Succeeds? || act.Fails?
    case Resolving(_, snapshot, todo, _) => act.Succeeds? || (act.Fails? && todo != [])
    case Observing(key, _) => act.Fails? || (act.Finds? && act.id in Owned(s.sub, key)) || (act.Succeeds? && Owned(s.sub, key) == {})
    case Listing(key, _) => act.Fails? || (act.Lists? && Listed(act.ids, Owned(s.sub, key)))
    case Removing(_, _, ids) => act.Succeeds? || (act.Fails? && ids != [])
    case Making(key, _) => act.Fails? || (act.Makes? && act.id != [] && act.id !in s.sub.issued)
    case Starting(key, _, id) => act.Fails? || (act.Succeeds? && id in s.sub.objs)
    case Reobserving(key, _) => act.Fails? || (act.Finds? && act.id in Owned(s.sub, key)) || (act.Succeeds? && Owned(s.sub, key) == {})
    case Examining(key) => act.Fails? || act.Succeeds?
    case Erasing(_) => act.Fails? || act.Succeeds?
    case Reporting(_, _, _) => act.Fails? || act.Succeeds?
    case Failing(_) => act.Succeeds?
    case Arming(_, _) => act.Succeeds?
    case Forgetting(_) => act.Succeeds?
    case Releasing(_) => act.Succeeds?
    case _ => false
  }

  // The effect of worker w's operation answering `act`, place by place.

  ghost function AtHeld(s: Sys, w: nat, x: Worker, act: Act): Sys
    requires w < |s.workers| && x.Held?
  {
    if act.Fails? then Conclude(s, w, x.key, Failed)
    else Read(s, w, x.key, if x.key in s.items then InNameOrder(s.items[x.key].references) else [])
  }

  function AtResolving(s: Sys, w: nat, x: Worker, act: Act): Sys
    requires w < |s.workers| && x.Resolving?
  {
    if act.Fails? then Move(s, w, Reporting(x.key, ERROR, Failed))
    else ResolveNext(s, w, x.key, x.snapshot, x.todo, x.values)
  }

  function Answer(s: Sys, spec: Bytes, act: Act): Observation
    requires act.Finds? ==> act.id in s.sub.objs
  {
    if act.Finds? then Seen(act.id, s.sub.objs[act.id], spec) else ABSENT
  }

  function AtObserving(s: Sys, w: nat, x: Worker, act: Act): Sys
    requires w < |s.workers| && x.Observing? && (act.Finds? ==> act.id in s.sub.objs)
  {
    if act.Fails? then Move(s, w, Reporting(x.key, ERROR, Failed))
    else Observed(s, w, x.key, x.spec, Answer(s, x.spec, act))
  }

  function AtListing(s: Sys, w: nat, x: Worker, act: Act): Sys
    requires w < |s.workers| && x.Listing? && (act.Fails? || act.Lists?)
  {
    if act.Fails? then RemovalFails(s, w, x.key, x.update) else Move(s, w, Removing(x.key, x.update, act.ids))
  }

  function AtRemoving(s: Sys, w: nat, x: Worker, act: Act): Sys
    requires w < |s.workers| && x.Removing?
  {
    if act.Fails? then RemovalFails(s, w, x.key, x.update)
    else if x.ids == [] then NoneLeft(s, w, x.key, x.update)
    else RemoveNext(s, w, x.key, x.update, x.ids)
  }

  function AtMaking(s: Sys, w: nat, x: Worker, act: Act): Sys
    requires w < |s.workers| && x.Making? && (act.Fails? || act.Makes?)
  {
    if act.Fails? then Move(s, w, Reporting(x.key, ERROR, Failed)) else Make(s, w, x.key, x.spec, act)
  }

  function AtStarting(s: Sys, w: nat, x: Worker, act: Act): Sys
    requires w < |s.workers| && x.Starting?
  {
    if act.Fails? then Move(s, w, Reporting(x.key, ERROR, Failed))
    else Move(s, w, Reobserving(x.key, x.spec)).(sub := SetState(s.sub, x.id, RUNNING))
  }

  function AtReobserving(s: Sys, w: nat, x: Worker, act: Act): Sys
    requires w < |s.workers| && x.Reobserving? && (act.Finds? ==> act.id in s.sub.objs)
  {
    if act.Fails? then Move(s, w, Reporting(x.key, Status(Creating, false, CallFailed, map[]), Failed))
    else Move(s, w, Reporting(x.key, StatusOf(Answer(s, x.spec, act)), Passed))
  }

  function AtExamining(s: Sys, w: nat, x: Worker, act: Act): Sys
    requires w < |s.workers| && x.Examining?
  {
    if act.Fails? then Move(s, w, Reporting(x.key, DELETING, Failed))
    else Move(s, w, if Owned(s.sub, x.key) != {} then Listing(x.key, None) else Erasing(x.key))
  }

  function AtErasing(s: Sys, w: nat, x: Worker, act: Act): Sys
    requires w < |s.workers| && x.Erasing?
  {
    if act.Fails? then Conclude(s, w, x.key, Failed)
    else
      Conclude(s.(items := Store.Delete(s.items, x.key), h := s.h.(condemned := s.h.condemned - {x.key})),
               w, x.key, Passed)
  }

  function AtReporting(s: Sys, w: nat, x: Worker, act: Act): Sys
    requires w < |s.workers| && x.Reporting?
  {
    if act.Fails? then Conclude(s, w, x.key, x.outcome) else Report(s, w, x.key, x.status, x.outcome)
  }

  function AtArming(s: Sys, w: nat, x: Worker): Sys
    requires w < |s.workers| && x.Arming?
  {
    Move(s, w, if x.failed then Releasing(x.key) else Forgetting(x.key)).(timers := s.timers + multiset{x.key})
  }

  /** The effect of worker w's operation answering `act`; none if it cannot. */
  ghost function Effect(s: Sys, w: nat, act: Act): Sys {
    if !CanAct(s, w, act) then s
    else
      var x := s.workers[w];
      match x
      case Held(_) => AtHeld(s, w, x, act)
      case Resolving(_, _, _, _) => AtResolving(s, w, x, act)
      case Observing(_, _) => AtObserving(s, w, x, act)
      case Listing(_, _) => AtListing(s, w, x, act)
      case Removing(_, _, _) => AtRemoving(s, w, x, act)
      case Making(_, _) => AtMaking(s, w, x, act)
      case Starting(_, _, _) => AtStarting(s, w, x, act)
      case Reobserving(_, _) => AtReobserving(s, w, x, act)
      case Examining(_) => AtExamining(s, w, x, act)
      case Erasing(_) => AtErasing(s, w, x, act)
      case Reporting(_, _, _) => AtReporting(s, w, x, act)
      case Failing(key) => Move(s, w, Arming(key, true)).(fails := Backoff.Failed(s.fails, key))
      case Arming(_, _) => AtArming(s, w, x)
      case Forgetting(key) => Move(s, w, Releasing(key)).(fails := Forgotten(s.fails, key))
      case Releasing(key) => Move(s, w, Idle).(queue := Done(s.queue, key))
      case _ => s
  }

  /** Which steps are possible, those of a worker inside a pass aside. */
  ghost predicate Possible(s: Sys, step: Step) {
    match step
    case UserPut(_, _, _) => true
    case UserMark(key) => key in s.items
    case ServerNudge(key) => key in s.owed
    case Tick => s.loop == Waiting
    case TakeNudge => s.loop == Waiting && s.nudge
    case Sweep(order) => s.loop == Sweeping && Distinct(order) && forall k :: k in order <==> k in s.items
    case SweepFails => s.loop == Sweeping
    case EnqueueNext => s.loop.Enqueuing?
    case LoopExits => s.loop == Waiting && s.cancelled
    case Fires(key) => key in s.timers
    case Cancel => true
    case CloseQueue => s.cancelled
    case DriftRemoves(id) => id in s.sub.objs
    case DriftState(id, _) => id in s.sub.objs
    case Takes(w) => w < |s.workers| && s.workers[w].Idle? && s.queue.ready != []
    case Exits(w) => w < |s.workers| && s.workers[w].Idle? && s.queue.ready == [] && s.queue.shuttingDown
    case Acts(_, _) => false
  }

  ghost predicate Enabled(s: Sys, step: Step) {
    if step.Acts? then CanAct(s, step.w, step.act) else Possible(s, step)
  }

  /** An accepted write: the new store, a nudge owed, a count. */
  function Write(s: Sys, key: Key, items: Items): Sys
    requires key in items
  {
    s.(items := items,
       owed := s.owed + multiset{key},
       h := s.h.(written := Bump(s.h.written, key)))
  }

  ghost function Happen(s: Sys, step: Step): Sys {
    if !Possible(s, step) then s
    else
      match step
      case UserPut(key, spec, references) => Write(s, key, Store.Put(s.items, key, spec, references))
      case UserMark(key) => Write(s, key, Store.MarkForDeletion(s.items, key))
      case ServerNudge(key) => s.(owed := s.owed - multiset{key}, nudge := true)
      case Tick => s.(loop := Sweeping)
      case TakeNudge => s.(loop := Sweeping, nudge := false)
      case Sweep(order) => s.(loop := Enqueuing(order), h := s.h.(sweepFailed := false))
      case SweepFails => s.(loop := Waiting, h := s.h.(sweepFailed := true))
      case EnqueueNext =>
        if s.loop.todo == [] then s.(loop := Waiting)
        else s.(loop := Enqueuing(s.loop.todo[1..]), queue := Enqueue(s.queue, s.loop.todo[0]))
      case LoopExits => s.(loop := Stopped)
      case Fires(key) => s.(timers := s.timers - multiset{key}, queue := Enqueue(s.queue, key))
      case Cancel => s.(cancelled := true)
      case CloseQueue => s.(queue := ShutDown(s.queue))
      case DriftRemoves(id) => s.(sub := Remove(s.sub, {id}))
      case DriftState(id, state) => s.(sub := SetState(s.sub, id, state))
      case Takes(w) => Move(s, w, Held(s.queue.ready[0])).(queue := Get(s.queue))
      case Exits(w) => Move(s, w, Exited)
  }

  /** What an enabled step does; any other leaves the state as it is. */
  ghost function Do(s: Sys, step: Step): Sys {
    if step.Acts? then Effect(s, step.w, step.act) else Happen(s, step)
  }

  /** An empty store, no owned objects, a sweep about to start. */
  predicate Initial(s: Sys) {
    && s.items == map[] && s.sub.objs == map[] && s.queue == Queue([], {}, {}, false)
    && s.fails == map[] && s.timers == multiset{} && s.owed == multiset{}
    && (forall w | 0 <= w < |s.workers| :: s.workers[w] == Idle)
    && s.loop == Sweeping && !s.nudge && !s.cancelled
    && s.h == History(map[], map[], {}, [], {}, {}, map[], false)
  }

  ghost predicate LegalRun(s: Sys, steps: seq<Step>)
    decreases steps
  {
    steps == [] || (Enabled(s, steps[0]) && LegalRun(Do(s, steps[0]), steps[1..]))
  }

  ghost function Run(s: Sys, steps: seq<Step>): Sys
    decreases steps
  {
    if steps == [] then s else Run(Do(s, steps[0]), steps[1..])
  }

  ghost predicate Reachable(s: Sys) {
    exists s0, steps :: Initial(s0) && LegalRun(s0, steps) && Run(s0, steps) == s
  }
}
