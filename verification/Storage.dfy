/** The in-memory store on an explicit heap (core/store/memory.go): stored resources,
    their Spec bytes and their maps are objects, copied on the way in and out. */
module Storage {
  import opened Model
  import Queues
  import Store

  /** A Go map of references, or of observed values: shared by whoever holds it. */
  class ReferenceMap {
    var entries: map<Bytes, Reference>

    constructor (entries: map<Bytes, Reference>)
      ensures this.entries == entries
    {
      this.entries := entries;
    }
  }

  class ObservedMap {
    var entries: map<Bytes, Bytes>

    constructor (entries: map<Bytes, Bytes>)
      ensures this.entries == entries
    {
      this.entries := entries;
    }
  }

  /** The Status struct: a value whose Observed field is a reference, possibly nil. */
  datatype StatusStruct = StatusStruct(phase: Phase, ready: bool, message: Message, observed: ObservedMap?)

  /** Creation, last update and deletion mark; 0 is the zero time. */
  datatype Times = Times(created: nat, updated: nat, deleted: nat)

  /** The value of a resource. */
  datatype Record = Record(key: Key, spec: Bytes, references: map<Bytes, Reference>, status: Status, times: Times)

  ghost function StatusValue(s: StatusStruct): Status
    reads s.observed
  {
    Status(s.phase, s.ready, s.message, if s.observed == null then map[] else s.observed.entries)
  }

  class ResourceObject {
    var key: Key
    var spec: array<char>
    var references: ReferenceMap?
    var status: StatusStruct
    var times: Times

    constructor (key: Key, spec: array<char>, references: ReferenceMap?, status: StatusStruct, times: Times)
      ensures this.key == key && this.spec == spec && this.references == references
      ensures this.status == status && this.times == times
    {
      this.key, this.spec, this.references, this.status, this.times := key, spec, references, status, times;
    }

    /** Everything reachable from the resource (null where a map is nil). */
    ghost function Parts(): set<object?>
      reads this
    {
      {this, spec, references, status.observed}
    }

    ghost function Value(): Record
      reads this, spec, references, status.observed
    {
      Record(key, spec[..], if references == null then map[] else references.entries, StatusValue(status), times)
    }
  }

  /** Nothing reachable from the resource existed before. */
  twostate predicate New(new res: ResourceObject)
    reads res
  {
    && fresh(res) && fresh(res.spec)
    && (res.references == null || fresh(res.references)) && (res.status.observed == null || fresh(res.status.observed))
  }

  method CopyObserved(m: ObservedMap) returns (cp: ObservedMap)
    ensures fresh(cp) && cp.entries == m.entries
  {
    cp := new ObservedMap(map[]);
    var rest := m.entries.Keys;
    while rest != {}
      invariant rest <= m.entries.Keys && fresh(cp) && m.entries == old(m.entries)
      invariant cp.entries == m.entries - rest
      decreases |rest|
    {
      var k :| k in rest;
      cp.entries := cp.entries[k := m.entries[k]];
      rest := rest - {k};
    }
    assert m.entries - {} == m.entries;
  }

  method CopyReferences(m: ReferenceMap) returns (cp: ReferenceMap)
    ensures fresh(cp) && cp.entries == m.entries
  {
    cp := new ReferenceMap(map[]);
    var rest := m.entries.Keys;
    while rest != {}
      invariant rest <= m.entries.Keys && fresh(cp) && m.entries == old(m.entries)
      invariant cp.entries == m.entries - rest
      decreases |rest|
    {
      var k :| k in rest;
      cp.entries := cp.entries[k := m.entries[k]];
      rest := rest - {k};
    }
    assert m.entries - {} == m.entries;
  }

  method CopyStatus(s: StatusStruct) returns (cp: StatusStruct)
    ensures cp.observed != null ==> fresh(cp.observed)
    ensures StatusValue(cp) == StatusValue(s)
  {
    cp := s;
    if s.observed != null {
      var observed := CopyObserved(s.observed);
      cp := s.(observed := observed);
    }
  }

  method CopyResource(res: ResourceObject) returns (cp: ResourceObject)
    ensures New(cp) && cp.Value() == res.Value()
  {
    var spec := new char[res.spec.Length];
    forall i | 0 <= i < res.spec.Length {
      spec[i] := res.spec[i];
    }
    assert spec[..] == res.spec[..];
    var status := CopyStatus(res.status);
    var references := res.references;
    if res.references != null {
      references := CopyReferences(res.references);
    }
    cp := new ResourceObject(res.key, spec, references, status, res.times);
  }

  // The store as a value.

  function StoreKey(key: Key): string {
    key.kind + "/" + key.name
  }

  type Records = map<string, Record>

  function PutRecord(records: Records, r: Record, now: nat): Records {
    var k := StoreKey(r.key);
    if k in records then
      var e := records[k];
      records[k := r.(status := e.status, times := Times(e.times.created, now, e.times.deleted))]
    else records[k := r.(times := Times(now, now, r.times.deleted))]
  }

  lemma PutChangesOne(records: Records, r: Record, now: nat)
    ensures PutRecord(records, r, now) == records[StoreKey(r.key) := PutRecord(records, r, now)[StoreKey(r.key)]]
  {
  }

  /** The caller's Spec and references are stored, stamped with the time; an entry that
      was there keeps its Status, creation time and mark. */
  lemma PutKeepsWhatItShould(records: Records, r: Record, now: nat)
    ensures
      var k, after := r.key.kind + "/" + r.key.name, PutRecord(records, r, now);
      && after.Keys == records.Keys + {k} && (forall j | j in records && j != k :: after[j] == records[j])
      && after[k].key == r.key && after[k].spec == r.spec && after[k].references == r.references
      && after[k].times.updated == now
      && (k in records ==>
            && after[k].status == records[k].status
            && after[k].times.created == records[k].times.created && after[k].times.deleted == records[k].times.deleted)
      && (k !in records ==>
            after[k].status == r.status && after[k].times.created == now && after[k].times.deleted == r.times.deleted)
  {
  }

  function UpdateRecord(records: Records, key: Key, status: Status): Records {
    var k := StoreKey(key);
    if k in records then records[k := records[k].(status := status)] else records
  }

  /** The mark is set once: a second request keeps the first time. */
  function MarkRecord(records: Records, key: Key, now: nat): Records {
    var k := StoreKey(key);
    if k in records && records[k].times.deleted == 0 then
      records[k := records[k].(times := records[k].times.(deleted := now))]
    else records
  }

  predicate Selected(r: Record, kind: Bytes) {
    kind == "" || r.key.kind == kind
  }

  /** `order` lists the selected entries, each once. */
  ghost predicate IsSelection(order: seq<string>, records: Records, kind: Bytes) {
    Queues.Distinct(order) && forall k :: k in order <==> k in records && Selected(records[k], kind)
  }

  class Memory {
    var items: map<string, ResourceObject>

    /** Which entry each stored object belongs to. */
    ghost var owner: map<object?, string>

    ghost predicate Belongs(o: object?, k: string)
      reads this
    {
      o == null || (o in owner && owner[o] == k)
    }

    /** Stored resources share nothing with each other. */
    ghost predicate Valid()
      reads this, owner.Keys
    {
      && null !in owner && this !in owner
      && forall k | k in items ::
           && Belongs(items[k], k) && Belongs(items[k].spec, k)
           && Belongs(items[k].references, k) && Belongs(items[k].status.observed, k)
    }

    ghost function View(): Records
      requires Valid()
      reads this, owner.Keys
    {
      map k | k in items :: items[k].Value()
    }

    /** The caller's resource shares nothing with the store. */
    ghost predicate Apart(res: ResourceObject)
      reads this, res
    {
      res.Parts() !! owner.Keys
    }

    constructor ()
      ensures Valid() && owner == map[] && View() == map[]
    {
      items, owner := map[], map[];
    }

    /** The view after one entry changed. */
    lemma ViewChanged(before: Records, k: string, r: Record)
      requires Valid() && items.Keys == before.Keys + {k} && items[k].Value() == r
      requires forall j | j in before && j != k :: items[j].Value() == before[j]
      ensures View() == before[k := r]
    {
    }

    lemma ViewIs(before: Records)
      requires Valid() && items.Keys == before.Keys && forall j | j in before :: items[j].Value() == before[j]
      ensures View() == before
    {
    }

    ghost method Tag(k: string, parts: set<object?>)
      requires null !in owner && this !in owner && this !in parts
      requires forall o | o in parts && o in owner :: owner[o] == k
      modifies this`owner
      ensures null !in owner && this !in owner && owner.Keys == old(owner).Keys + (parts - {null})
      ensures forall o | o in old(owner) :: owner[o] == old(owner)[o]
      ensures forall o | o in parts :: Belongs(o, k)
    {
      owner := owner + (map o | o in parts && o != null :: k);
    }

    ghost method Adopt(k: string, parts: set<object?>)
      requires Valid() && this !in parts
      requires forall o | o in parts && o in owner :: owner[o] == k
      modifies this`owner
      ensures Valid() && View() == old(View()) && owner.Keys == old(owner).Keys + (parts - {null})
      ensures forall o | o in parts :: Belongs(o, k)
    {
      ghost var before := View();
      Tag(k, parts);
      ViewIs(before);
    }

    /** A resource that shares nothing with another entry takes its place. */
    method Install(k: string, res: ResourceObject)
      requires Valid() && this !in res.Parts()
      requires forall o | o in res.Parts() && o in owner :: owner[o] == k
      modifies this
      ensures Valid() && owner.Keys == old(owner).Keys + (res.Parts() - {null})
      ensures View() == old(View())[k := res.Value()]
    {
      ghost var before := View();
      Adopt(k, res.Parts());
      items := items[k := res];
      ViewChanged(before, k, res.Value());
    }

    /** The copy Put stores: an existing entry lends it Status, creation time and mark. */
    method Stamped(res: ResourceObject, now: nat) returns (cp: ResourceObject)
      requires Valid() && Apart(res)
      ensures forall o | o in cp.Parts() && o in owner :: owner[o] == StoreKey(res.key)
      ensures forall o | o in cp.Parts() - {null} && o !in owner :: fresh(o)
      ensures this !in cp.Parts() && res.Parts() !! cp.Parts() - {null}
      ensures cp.Value() == PutRecord(View(), res.Value(), now)[StoreKey(res.key)]
    {
      var k := StoreKey(res.key);
      cp := CopyResource(res);
      if k in items {
        var existing := items[k];
        cp.status := existing.status;
        cp.times := Times(existing.times.created, now, existing.times.deleted);
      } else {
        cp.times := Times(now, now, cp.times.deleted);
      }
    }

    method Put(res: ResourceObject, now: nat)
      requires Valid() && Apart(res)
      modifies this
      ensures Valid() && Apart(res) && forall o | o in owner && o !in old(owner) :: fresh(o)
      ensures View() == PutRecord(old(View()), old(res.Value()), now)
      ensures
        var k, before := res.key.kind + "/" + res.key.name, old(View());
        && View().Keys == before.Keys + {k} && (forall j | j in before && j != k :: View()[j] == before[j])
        && View()[k].key == res.key && View()[k].spec == old(res.Value()).spec
        && View()[k].references == old(res.Value()).references && View()[k].times.updated == now
        && (k in before ==>
              && View()[k].status == before[k].status
              && View()[k].times.created == before[k].times.created && View()[k].times.deleted == before[k].times.deleted)
        && (k !in before ==> View()[k].times.created == now)
    {
      ghost var before, r := View(), res.Value();
      var cp := Stamped(res, now);
      Untouched(this);
      PutChangesOne(before, r, now);
      assert before[StoreKey(res.key) := cp.Value()] == PutRecord(before, r, now);
      Install(StoreKey(res.key), cp);
      PutKeepsWhatItShould(before, r, now);
    }

    method Get(key: Key) returns (res: ResourceObject?)
      requires Valid()
      ensures res == null <==> StoreKey(key) !in View()
      ensures res != null ==> New(res) && res.Value() == View()[StoreKey(key)]
    {
      var k := StoreKey(key);
      if k !in items {
        return null;
      }
      res := CopyResource(items[k]);
    }

    /** The entries of a kind, "" meaning all kinds, in map order. */
    method Select(kind: Bytes) returns (order: seq<string>)
      requires Valid()
      ensures IsSelection(order, View(), kind)
    {
      ghost var records := View();
      order := [];
      var rest := items.Keys;
      while rest != {}
        invariant rest <= items.Keys && Queues.Distinct(order)
        invariant forall k :: k in order <==> k in records && k !in rest && Selected(records[k], kind)
        decreases |rest|
      {
        var k :| k in rest;
        rest := rest - {k};
        assert items[k].Value() == records[k];
        if kind == "" || items[k].key.kind == kind {
          order := order + [k];
        }
      }
    }

    method CopyAll(order: seq<string>) returns (out: seq<ResourceObject>)
      requires forall j | 0 <= j < |order| :: order[j] in items
      ensures |out| == |order| && forall j | 0 <= j < |out| :: New(out[j]) && out[j].Value() == items[order[j]].Value()
    {
      out := [];
      for i := 0 to |order|
        invariant |out| == i
        invariant forall j | 0 <= j < i :: New(out[j]) && out[j].Value() == items[order[j]].Value()
      {
        var cp := CopyResource(items[order[i]]);
        out := out + [cp];
      }
    }

    /** A copy of each entry of a kind, and of nothing else. */
    method List(kind: Bytes) returns (out: seq<ResourceObject>)
      requires Valid()
      ensures forall i | 0 <= i < |out| :: New(out[i])
      ensures exists order: seq<string> ::
                && Queues.Distinct(order) && (forall k :: k in order <==> k in View() && (kind == "" || View()[k].key.kind == kind))
                && |order| == |out| && forall i | 0 <= i < |out| :: out[i].Value() == View()[order[i]]
    {
      var order := Select(kind);
      assert forall j | 0 <= j < |order| :: order[j] in order;
      out := CopyAll(order);
    }

    lemma StatusIsOwn(k: string, j: string)
      requires Valid() && k in items && j in items && j != k
      ensures items[j] != items[k]
    {
    }

    method Assign(k: string, status: StatusStruct)
      requires Valid() && k in items && Belongs(status.observed, k)
      modifies items[k]
      ensures Valid()
      ensures View() == old(View())[k := old(items[k].Value()).(status := StatusValue(status))]
    {
      ghost var before := View();
      forall j | j in items && j != k ensures items[j] != items[k] {
        StatusIsOwn(k, j);
      }
      items[k].status := status;
      ViewChanged(before, k, items[k].Value());
    }

    method Overwrite(k: string, status: StatusStruct)
      requires Valid() && k in items && status.observed !in owner
      modifies this`owner, items[k]
      ensures Valid() && owner.Keys == old(owner).Keys + ({status.observed} - {null})
      ensures View() == old(View())[k := old(items[k].Value()).(status := StatusValue(status))]
    {
      Adopt(k, {status.observed});
      assert Valid();
      Assign(k, status);
    }

    method UpdateStatus(key: Key, status: StatusStruct) returns (found: bool)
      requires Valid() && status.observed !in owner
      modifies this, owner.Keys
      ensures Valid() && status.observed !in owner && forall o | o in owner && o !in old(owner) :: fresh(o)
      ensures found <==> StoreKey(key) in old(View())
      ensures View() == UpdateRecord(old(View()), key, StatusValue(status))
      ensures
        var k, before := key.kind + "/" + key.name, old(View());
        View() == if k in before then before[k := before[k].(status := StatusValue(status))] else before
    {
      var k := StoreKey(key);
      if k !in items {
        return false;
      }
      assert Belongs(items[k], k);
      var cp := CopyStatus(status);
      Untouched(this);
      assert cp.observed != null ==> fresh(cp.observed);
      Overwrite(k, cp);
      found := true;
    }

    method Mark(k: string, now: nat)
      requires Valid() && k in items
      modifies items[k]
      ensures Valid()
      ensures View() == old(View())[k := old(items[k].Value()).(times := old(items[k].times).(deleted := now))]
    {
      ghost var before := View();
      forall j | j in items && j != k ensures items[j] != items[k] {
        StatusIsOwn(k, j);
      }
      items[k].times := items[k].times.(deleted := now);
      ViewChanged(before, k, items[k].Value());
    }

    method MarkForDeletion(key: Key, now: nat) returns (found: bool)
      requires Valid()
      modifies owner.Keys
      ensures Valid()
      ensures found <==> StoreKey(key) in old(View())
      ensures View() == MarkRecord(old(View()), key, now)
      ensures
        var k, before := key.kind + "/" + key.name, old(View());
        && View().Keys == before.Keys && (forall j | j in before && j != k :: View()[j] == before[j])
        && (k in before ==>
              var was, marked := before[k].times.deleted, View()[k].times.deleted;
              && marked == (if was == 0 then now else was)
              && View()[k] == before[k].(times := before[k].times.(deleted := marked)))
    {
      var k := StoreKey(key);
      if k !in items {
        return false;
      }
      if items[k].times.deleted == 0 {
        assert Belongs(items[k], k);
        Mark(k, now);
      }
      return true;
    }

    method Delete(key: Key) returns (found: bool)
      requires Valid()
      modifies this`items
      ensures Valid()
      ensures found <==> StoreKey(key) in old(View())
      ensures View() == old(View()) - {StoreKey(key)}
    {
      var k := StoreKey(key);
      if k !in items {
        return false;
      }
      items := items - {k};
      return true;
    }
  }

  // Isolation: callers may do what they like with what they passed in or got out.

  /** Stands for any writes to a resource its holder may make. */
  method Scribble(res: ResourceObject, observed: map<Bytes, Bytes>, references: map<Bytes, Reference>, c: char)
    modifies res.Parts()
  {
    if res.status.observed != null {
      res.status.observed.entries := observed;
    }
    if res.references != null {
      res.references.entries := references;
    }
    if res.spec.Length > 0 {
      res.spec[0] := c;
    }
    res.times := Times(0, 0, 0);
  }

  /** Writes outside the store do not show in it. */
  twostate lemma Untouched(m: Memory)
    requires old(m.Valid()) && unchanged(m) && unchanged(m.owner.Keys)
    ensures m.Valid() && m.View() == old(m.View())
  {
  }

  method GetIsIsolated(m: Memory, key: Key, observed: map<Bytes, Bytes>, references: map<Bytes, Reference>, c: char)
    requires m.Valid()
    ensures m.Valid() && m.View() == old(m.View())
  {
    var res := m.Get(key);
    if res != null {
      assert res.Parts() !! m.owner.Keys && m.View() == old(m.View());
      Scribble(res, observed, references, c);
    }
  }

  method PutIsIsolated(m: Memory, res: ResourceObject, now: nat, observed: map<Bytes, Bytes>, references: map<Bytes, Reference>, c: char)
    requires m.Valid() && m.Apart(res)
    modifies m, res.Parts()
    ensures m.Valid() && m.View() == PutRecord(old(m.View()), old(res.Value()), now)
  {
    m.Put(res, now);
    assert res.Parts() !! m.owner.Keys;
    label stored:
    Scribble(res, observed, references, c);
    Untouched@stored(m);
  }

  method UpdateStatusIsIsolated(m: Memory, key: Key, status: StatusStruct, observed: map<Bytes, Bytes>)
    requires m.Valid() && status.observed !in m.owner
    modifies m, m.owner.Keys, status.observed
    ensures m.Valid() && m.View() == UpdateRecord(old(m.View()), key, old(StatusValue(status)))
  {
    var found := m.UpdateStatus(key, status);
    label stored:
    if status.observed != null {
      status.observed.entries := observed;
      Untouched@stored(m);
    }
  }

  // Refinement of the store contract.

  function FirstSlash(s: string): nat {
    if s == [] || s[0] == '/' then 0 else 1 + FirstSlash(s[1..])
  }

  lemma {:induction false} FirstSlashEndsKind(kind: string, name: string)
    requires '/' !in kind
    ensures FirstSlash(kind + "/" + name) == |kind|
  {
    if kind != [] {
      assert (kind + "/" + name)[1..] == kind[1..] + "/" + name;
      FirstSlashEndsKind(kind[1..], name);
    }
  }

  /** Keys with slash-free kinds correspond one to one with the strings they are
      stored under ... */
  lemma StoreKeyIsInjective(a: Key, b: Key)
    requires '/' !in a.kind && '/' !in b.kind && StoreKey(a) == StoreKey(b)
    ensures a == b
  {
    FirstSlashEndsKind(a.kind, a.name);
    FirstSlashEndsKind(b.kind, b.name);
    var s := StoreKey(a);
    assert a.kind == s[..|a.kind|] && b.kind == s[..|b.kind|];
    assert a.name == s[|a.kind| + 1..] && b.name == s[|b.kind| + 1..];
  }

  /** ... but a kind with a slash can collide with another. */
  lemma SlashedKindsCollide()
    ensures StoreKey(Key("a/b", "c")) == StoreKey(Key("a", "b/c")) && Key("a/b", "c") != Key("a", "b/c")
  {
  }

  ghost predicate Keyed(records: Records) {
    forall k | k in records :: k == StoreKey(records[k].key) && '/' !in records[k].key.kind
  }

  ghost function KeysOf(records: Records): set<Key> {
    set k | k in records :: records[k].key
  }

  ghost function ToResource(r: Record): Resource {
    Resource(r.spec, r.references, r.times.deleted != 0, r.status)
  }

  ghost function ToItems(records: Records): Items
    requires Keyed(records)
  {
    map key | key in KeysOf(records) :: ToResource(records[StoreKey(key)])
  }

  /** The store finds an entry under a key exactly when the contract does. */
  lemma FindsTheSame(records: Records, key: Key)
    requires Keyed(records) && '/' !in key.kind
    ensures StoreKey(key) in records <==> key in ToItems(records)
    ensures StoreKey(key) in records ==> records[StoreKey(key)].key == key && ToItems(records)[key] == ToResource(records[StoreKey(key)])
  {
    if StoreKey(key) in records {
      StoreKeyIsInjective(key, records[StoreKey(key)].key);
    }
  }

  lemma ChangeOneElsewhere(records: Records, r: Record, key: Key)
    requires Keyed(records) && '/' !in r.key.kind && key != r.key
    ensures Keyed(records[StoreKey(r.key) := r])
    ensures
      var after := ToItems(records[StoreKey(r.key) := r]);
      (key in after <==> key in ToItems(records)) && (key in after ==> after[key] == ToItems(records)[key])
  {
    var after := records[StoreKey(r.key) := r];
    if '/' !in key.kind {
      FindsTheSame(records, key);
      FindsTheSame(after, key);
      if StoreKey(key) == StoreKey(r.key) {
        StoreKeyIsInjective(key, r.key);
      }
    }
  }

  lemma ChangeOne(records: Records, r: Record)
    requires Keyed(records) && '/' !in r.key.kind
    ensures Keyed(records[StoreKey(r.key) := r])
    ensures ToItems(records[StoreKey(r.key) := r]) == ToItems(records)[r.key := ToResource(r)]
  {
    var after := records[StoreKey(r.key) := r];
    FindsTheSame(after, r.key);
    forall key | key != r.key
      ensures key in ToItems(after) <==> key in ToItems(records)
      ensures key in ToItems(after) ==> ToItems(after)[key] == ToItems(records)[key]
    {
      ChangeOneElsewhere(records, r, key);
    }
  }

  lemma RemoveOne(records: Records, key: Key)
    requires Keyed(records) && '/' !in key.kind
    ensures Keyed(records - {StoreKey(key)})
    ensures ToItems(records - {StoreKey(key)}) == Store.Delete(ToItems(records), key)
  {
    var after := records - {StoreKey(key)};
    forall k ensures k in ToItems(after) <==> k in ToItems(records) && k != key {
      if '/' !in k.kind {
        FindsTheSame(records, k);
        FindsTheSame(after, k);
        if StoreKey(k) == StoreKey(key) {
          StoreKeyIsInjective(k, key);
        }
      }
    }
  }

  /** What each operation of the contract does to the records; a Put carries no Status
      and no mark of its own, as the server's do. */
  function DoRecord(records: Records, op: Store.Op, now: nat): Records {
    match op
    case UserPut(key, spec, references) => PutRecord(records, Record(key, spec, references, UNOBSERVED, Times(0, 0, 0)), now)
    case UserMark(key) => MarkRecord(records, key, now)
    case SetStatus(key, status) => UpdateRecord(records, key, status)
    case Remove(key) => records - {StoreKey(key)}
  }

  lemma OpRefines(records: Records, op: Store.Op, now: nat)
    requires Keyed(records) && '/' !in op.key.kind && now > 0
    ensures Keyed(DoRecord(records, op, now))
    ensures ToItems(DoRecord(records, op, now)) == Store.Do(ToItems(records), op)
  {
    FindsTheSame(records, op.key);
    var k := StoreKey(op.key);
    match op
    case UserPut(key, spec, references) =>
      var r := Record(key, spec, references, UNOBSERVED, Times(0, 0, 0));
      PutChangesOne(records, r, now);
      ChangeOne(records, PutRecord(records, r, now)[k]);
    case UserMark(key) =>
      if k in records {
        MarkIsOne(records, key, now);
        ChangeOne(records, MarkRecord(records, key, now)[k]);
      }
    case SetStatus(key, status) =>
      if k in records {
        ChangeOne(records, records[k].(status := status));
      }
    case Remove(key) => RemoveOne(records, key);
  }

  lemma MarkIsOne(records: Records, key: Key, now: nat)
    requires StoreKey(key) in records
    ensures MarkRecord(records, key, now) == records[StoreKey(key) := MarkRecord(records, key, now)[StoreKey(key)]]
  {
  }

  ghost function RunRecords(records: Records, ops: seq<Store.Op>, times: seq<nat>): Records
    requires |times| == |ops|
    decreases |ops|
  {
    if ops == [] then records else RunRecords(DoRecord(records, ops[0], times[0]), ops[1..], times[1..])
  }

  /** Over any run, an entry that is not removed keeps its creation time, and once marked
      the time of its mark. */
  lemma {:induction false} CreatedNeverChanges(records: Records, ops: seq<Store.Op>, times: seq<nat>, k: string)
    requires |times| == |ops| && k in records
    requires forall op | op in ops && op.Remove? :: op.key.kind + "/" + op.key.name != k
    ensures
      var after := RunRecords(records, ops, times);
      && k in after && after[k].times.created == records[k].times.created
      && (records[k].times.deleted != 0 ==> after[k].times.deleted == records[k].times.deleted)
    decreases |ops|
  {
    if ops != [] {
      assert ops[0] in ops;
      if ops[0].UserPut? {
        PutKeepsWhatItShould(records, Record(ops[0].key, ops[0].spec, ops[0].references, UNOBSERVED, Times(0, 0, 0)), times[0]);
      }
      CreatedNeverChanges(DoRecord(records, ops[0], times[0]), ops[1..], times[1..], k);
    }
  }

  /** Over any run, the stored records are the contract's pure map. */
  lemma {:induction false} RunRefines(records: Records, ops: seq<Store.Op>, times: seq<nat>)
    requires Keyed(records) && |times| == |ops| && forall t | t in times :: t > 0
    requires forall op | op in ops :: '/' !in op.key.kind
    ensures Keyed(RunRecords(records, ops, times))
    ensures ToItems(RunRecords(records, ops, times)) == Store.Run(ToItems(records), ops)
    decreases |ops|
  {
    if ops != [] {
      assert ops[0] in ops && times[0] in times;
      assert forall t | t in times[1..] :: t in times;
      OpRefines(records, ops[0], times[0]);
      RunRefines(DoRecord(records, ops[0], times[0]), ops[1..], times[1..]);
    }
  }
}
