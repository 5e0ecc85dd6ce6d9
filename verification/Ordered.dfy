/** References in the order a pass resolves them: by name, byte-wise
    (core/reconcile/reconciler.go:232-236). */
module Ordered {
  import opened Model
  import opened JsonText

  /** A reference under its local name. */
  datatype Named = Named(name: Bytes, ref: Reference)

  ghost predicate Increasing(todo: seq<Named>) {
    forall i, j | 0 <= i < j < |todo| :: StringLess(todo[i].name, todo[j].name)
  }

  ghost predicate SameReferences(todo: seq<Named>, references: map<Bytes, Reference>) {
    && (forall n | n in todo :: n.name in references && references[n.name] == n.ref)
    && (forall name | name in references :: Named(name, references[name]) in todo)
  }

  ghost predicate Rising(names: seq<Bytes>) {
    forall i, j | 0 <= i < j < |names| :: StringLess(names[i], names[j])
  }

  lemma SameTail(a: seq<Bytes>, b: seq<Bytes>, n: Bytes)
    requires a != [] && Rising(a) && n in a[1..] && n in b && b != [] && a[0] == b[0]
    ensures n in b[1..]
  {
    var i :| 0 <= i < |a[1..]| && a[1..][i] == n;
    StringLessOrder(a[0], a[i + 1], a[0]);
    assert b == [b[0]] + b[1..];
  }

  lemma SameHead(a: seq<Bytes>, b: seq<Bytes>)
    requires Rising(a) && Rising(b) && a != [] && b != [] && a[0] in b && b[0] in a
    ensures a[0] == b[0]
  {
    var i :| 0 <= i < |b| && b[i] == a[0];
    var j :| 0 <= j < |a| && a[j] == b[0];
    if i > 0 && j > 0 {
      StringLessOrder(b[0], a[0], b[0]);
      assert false;
    }
  }

  /** Two lists of the same names in strictly increasing order are equal. */
  lemma {:induction false} OneRising(a: seq<Bytes>, b: seq<Bytes>)
    requires Rising(a) && Rising(b) && forall n :: n in a <==> n in b
    ensures a == b
  {
    assert a == [] <==> b == [] by {
      if a != [] { assert a[0] in b; }
      if b != [] { assert b[0] in a; }
    }
    if a != [] {
      assert a[0] in b && b[0] in a;
      SameHead(a, b);
      forall n ensures n in a[1..] <==> n in b[1..] {
        if n in a[1..] { assert n in a; SameTail(a, b, n); }
        if n in b[1..] { assert n in b; SameTail(b, a, n); }
      }
      OneRising(a[1..], b[1..]);
    }
  }

  function Insert(todo: seq<Named>, n: Named): seq<Named> {
    if todo == [] || StringLess(n.name, todo[0].name) then [n] + todo
    else [todo[0]] + Insert(todo[1..], n)
  }

  lemma {:induction false} StringLessOrder(a: Bytes, b: Bytes, c: Bytes)
    ensures a != b ==> StringLess(a, b) || StringLess(b, a)
    ensures !StringLess(a, a)
    ensures StringLess(a, b) && StringLess(b, c) ==> StringLess(a, c)
  {
    if a != [] {
      if b != [] {
        assert a == [a[0]] + a[1..] && b == [b[0]] + b[1..];
        StringLessOrder(a[1..], b[1..], if c == [] then [] else c[1..]);
      } else {
        StringLessOrder(a[1..], [], []);
      }
    }
  }

  lemma {:induction false} InsertMembers(todo: seq<Named>, n: Named)
    ensures forall m :: m in Insert(todo, n) <==> m == n || m in todo
  {
    if todo != [] && !StringLess(n.name, todo[0].name) {
      InsertMembers(todo[1..], n);
      assert todo == [todo[0]] + todo[1..];
    }
  }

  lemma {:induction false} InsertKeepsOrder(todo: seq<Named>, n: Named)
    requires Increasing(todo) && forall m | m in todo :: m.name != n.name
    ensures Increasing(Insert(todo, n))
  {
    if todo == [] {
    } else if StringLess(n.name, todo[0].name) {
      forall i | 0 <= i < |todo| ensures StringLess(n.name, todo[i].name) {
        StringLessOrder(n.name, todo[0].name, todo[i].name);
      }
    } else {
      InsertKeepsOrder(todo[1..], n);
      InsertMembers(todo[1..], n);
      StringLessOrder(todo[0].name, n.name, n.name);
      assert todo[0] in todo;
      var tail := Insert(todo[1..], n);
      forall j | 0 <= j < |tail| ensures StringLess(todo[0].name, tail[j].name) {
        assert tail[j] in tail;
        if tail[j] != n {
          var i :| 0 <= i < |todo[1..]| && todo[1..][i] == tail[j];
          assert todo[i + 1] == tail[j];
        }
      }
    }
  }

  lemma InsertReference(todo: seq<Named>, references: map<Bytes, Reference>, name: Bytes)
    requires name in references && SameReferences(todo, references - {name})
    ensures SameReferences(Insert(todo, Named(name, references[name])), references)
  {
    var n := Named(name, references[name]);
    InsertMembers(todo, n);
    forall other | other in references ensures Named(other, references[other]) in Insert(todo, n) {
      if other != name {
        assert other in references - {name};
      }
    }
  }

  /** sort.Strings of the names, each with its reference. */
  ghost function InNameOrder(references: map<Bytes, Reference>): (todo: seq<Named>)
    ensures Increasing(todo) && SameReferences(todo, references)
    decreases |references|
  {
    if references == map[] then []
    else
      var name :| name in references;
      var rest := references - {name};
      assert |rest.Keys| < |references.Keys| by { assert rest.Keys == references.Keys - {name}; }
      var todo := InNameOrder(rest);
      InsertKeepsOrder(todo, Named(name, references[name]));
      InsertReference(todo, references, name);
      Insert(todo, Named(name, references[name]))
  }
}
