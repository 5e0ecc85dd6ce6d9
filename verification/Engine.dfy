/** The Docker substrate as the two providers see it: objects carrying ownership
    labels and the fingerprint of the Spec they were created from
    (providers/docker/provider.go, providers/docker/network.go). */
module Engine {
  import opened Model
  import opened JsonText

  type ObjId = Bytes

  const RUNNING: Bytes := "running"
  const CREATED: Bytes := "created"

  /** An owned object: its ownership labels are `key`, its hash label is `hash`. */
  datatype Obj =
    | Container(key: Key, hash: Fingerprint, image: Bytes, state: Bytes, network: Bytes)
    | Network(key: Key, hash: Fingerprint, driver: Bytes)

  /** Identifiers are never issued twice. */
  datatype Substrate = Substrate(objs: map<ObjId, Obj>, issued: set<ObjId>)

  function Owned(s: Substrate, key: Key): set<ObjId> {
    set id | id in s.objs && s.objs[id].key == key
  }

  function Add(s: Substrate, id: ObjId, obj: Obj): Substrate {
    Substrate(s.objs[id := obj], s.issued + {id})
  }

  function Remove(s: Substrate, ids: set<ObjId>): Substrate {
    s.(objs := s.objs - ids)
  }

  function SetState(s: Substrate, id: ObjId, state: Bytes): Substrate {
    if id in s.objs && s.objs[id].Container? then s.(objs := s.objs[id := s.objs[id].(state := state)])
    else s
  }

  /** The kinds with a registered provider (cmd/setpointd/main.go). */
  predicate Managed(key: Key) {
    key.kind == CONTAINER || key.kind == NETWORK
  }

  function ShortId(id: ObjId): Bytes {
    if |id| > 12 then id[..12] else id
  }

  predicate Healthy(obj: Obj) {
    obj.Network? || obj.state == RUNNING
  }

  function Details(id: ObjId, obj: Obj): map<Bytes, Bytes> {
    match obj
    case Container(_, _, image, state, _) => map["containerId" := ShortId(id), "image" := image, "state" := state]
    case Network(_, _, driver) => map["networkId" := ShortId(id), "driver" := driver]
  }

  /** A container attaches to the network its Spec names, by id, short id or name. */
  predicate Attached(c: Obj, id: ObjId, n: Obj) {
    c.Container? && n.Network? && (c.network == id || c.network == ShortId(id) || c.network == "setpoint-" + n.key.name)
  }

  /** The same object, up to whether it runs. */
  predicate SameButState(a: Obj, b: Obj) {
    if a.Container? then b.Container? && b == a.(state := b.state) else b == a
  }

  /** Docker refuses to remove a network while a container is attached to it. */
  predicate Refuses(s: Substrate, id: ObjId) {
    id in s.objs && s.objs[id].Network? && exists c :: c in s.objs && Attached(s.objs[c], id, s.objs[id])
  }

  datatype Observation = Observation(
    exists_: bool, ready: bool, upToDate: bool, message: Message, details: map<Bytes, Bytes>)

  const ABSENT := Observation(false, false, false, NoMessage, map[])

  /** What Observe reports about the first object listed, for a Spec. */
  function Seen(id: ObjId, obj: Obj, spec: Bytes): Observation {
    var upToDate := obj.hash == SpecHash(spec);
    Observation(true, Healthy(obj), upToDate,
                if !upToDate then Stale else if !Healthy(obj) then NotRunning else NoMessage,
                Details(id, obj))
  }

  /** A short id is the first 12 bytes of the id, or all of a shorter one. */
  predicate Abbreviates(short: Bytes, id: ObjId) {
    short <= id && |short| == if |id| < 12 then |id| else 12
  }

  /** The details tell the object: under which names, and what of it. */
  ghost predicate Tells(details: map<Bytes, Bytes>, id: ObjId, obj: Obj) {
    match obj
    case Container(_, _, image, state, _) =>
      && details.Keys == {"containerId", "image", "state"}
      && Abbreviates(details["containerId"], id) && details["image"] == image && details["state"] == state
    case Network(_, _, driver) =>
      && details.Keys == {"networkId", "driver"}
      && Abbreviates(details["networkId"], id) && details["driver"] == driver
  }

  /** The observation is of this object, compared with this Spec. */
  ghost predicate ObservationOf(obs: Observation, id: ObjId, obj: Obj, spec: Bytes) {
    && obs.exists_ && Tells(obs.details, id, obj)
    && (obs.ready <==> obj.Network? || obj.state == "running")
    && (obs.upToDate <==> obj.hash == SpecHash(spec))
    && obs.message == (if !obs.upToDate then Stale else if !obs.ready then NotRunning else NoMessage)
  }

  lemma SeenIsObservationOf(id: ObjId, obj: Obj, spec: Bytes)
    ensures ObservationOf(Seen(id, obj, spec), id, obj, spec)
  {
  }

  /** The text a container's Spec can name a network by. */
  predicate NamesNetwork(text: Bytes, id: ObjId, network: Obj) {
    text == id || Abbreviates(text, id) || text == "setpoint-" + network.key.name
  }

  lemma AttachedIff(c: Obj, id: ObjId, n: Obj)
    ensures Attached(c, id, n) <==> c.Container? && n.Network? && NamesNetwork(c.network, id, n)
  {
  }

  /** The object a provider creates for a key: a container is created stopped. */
  function NewObj(key: Key, spec: Bytes, image: Bytes, network: Bytes, driver: Bytes): Obj {
    if key.kind == NETWORK then Network(key, SpecHash(spec), driver)
    else Container(key, SpecHash(spec), image, CREATED, network)
  }
}
