/** The store contract (core/store/store.go) as operations on a pure map, and who may
    change what over whole runs. Memory.dfy is the heap implementation. */
module Store {
  import opened Model

  function Put(items: Items, key: Key, spec: Bytes, references: map<Bytes, Reference>): Items {
    if key in items then items[key := Resource(spec, references, items[key].marked, items[key].status)]
    else items[key := Resource(spec, references, false, UNOBSERVED)]
  }

  /** A missing key is reported to the caller, who ignores it. */
  function UpdateStatus(items: Items, key: Key, status: Status): Items {
    if key in items then items[key := items[key].(status := status)] else items
  }

  function MarkForDeletion(items: Items, key: Key): Items {
    if key in items then items[key := items[key].(marked := true)] else items
  }

  function Delete(items: Items, key: Key): Items {
    items - {key}
  }

  datatype Op =
    | UserPut(key: Key, spec: Bytes, references: map<Bytes, Reference>)
    | UserMark(key: Key)
    | SetStatus(key: Key, status: Status)
    | Remove(key: Key)

  predicate ByUser(op: Op) {
    op.UserPut? || op.UserMark?
  }

  function Do(items: Items, op: Op): Items {
    match op
    case UserPut(key, spec, references) => Put(items, key, spec, references)
    case UserMark(key) => MarkForDeletion(items, key)
    case SetStatus(key, status) => UpdateStatus(items, key, status)
    case Remove(key) => Delete(items, key)
  }

  function Run(items: Items, ops: seq<Op>): Items
    decreases ops
  {
    if ops == [] then items else Run(Do(items, ops[0]), ops[1..])
  }

  /** Users never change the Status of an existing entry, nor remove one; the mark
      of a present entry never goes away. */
  lemma {:induction false} UsersKeepStatus(items: Items, ops: seq<Op>, key: Key)
    requires key in items && forall op | op in ops :: ByUser(op)
    ensures
      var after := Run(items, ops);
      key in after && after[key].status == items[key].status && (items[key].marked ==> after[key].marked)
    decreases ops
  {
    if ops != [] {
      assert ops[0] in ops;
      UsersKeepStatus(Do(items, ops[0]), ops[1..], key);
    }
  }

  /** The reconciler never changes Spec, References or mark of a surviving entry,
      and never adds one. */
  lemma {:induction false} ReconcilerKeepsSpec(items: Items, ops: seq<Op>, key: Key)
    requires forall op | op in ops :: !ByUser(op)
    ensures
      var after := Run(items, ops);
      key in after ==>
        && key in items
        && after[key].(status := items[key].status) == items[key]
    decreases ops
  {
    if ops != [] {
      assert ops[0] in ops;
      ReconcilerKeepsSpec(Do(items, ops[0]), ops[1..], key);
    }
  }

  /** The deletion mark is sticky: through any mix of operations it disappears only
      with the entry. */
  lemma {:induction false} MarkIsSticky(items: Items, ops: seq<Op>, key: Key)
    requires key in items && items[key].marked && Remove(key) !in ops
    ensures key in Run(items, ops) && Run(items, ops)[key].marked
    decreases ops
  {
    if ops != [] {
      assert ops[0] in ops;
      MarkIsSticky(Do(items, ops[0]), ops[1..], key);
    }
  }
}
