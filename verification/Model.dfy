/** The entities every other module talks about: the resource envelope of
    core/api/resource.go with the parts the control plane acts on.

    A Go string and a Go byte slice are both sequences of bytes; here each byte
    is the char with the same code. Timestamps are left out: the deletion mark is
    the boolean `marked`. */
module Model {

  datatype Option<+T> = None | Some(value: T)

  type Bytes = string

  const CONTAINER: Bytes := "container"
  const NETWORK: Bytes := "network"

  datatype Key = Key(kind: Bytes, name: Bytes)

  datatype Reference = Reference(target: Key, field: Bytes)

  datatype Phase = NoPhase | Pending | Creating | Ready | Deleting | Error

  /** The message of a Status. The text of an error is not modelled. */
  datatype Message =
    | NoMessage
    | NoSuchResource(target: Key)
    | TargetNotReady(target: Key)
    | FieldNotSet(target: Key, field: Bytes)
    | NoProvider
    | Stale
    | NotRunning
    | RemovingFromSubstrate
    | CallFailed

  datatype Status = Status(phase: Phase, ready: bool, message: Message, observed: map<Bytes, Bytes>)

  const UNOBSERVED := Status(NoPhase, false, NoMessage, map[])

  datatype Resource = Resource(spec: Bytes, references: map<Bytes, Reference>, marked: bool, status: Status)

  type Items = map<Key, Resource>
}
