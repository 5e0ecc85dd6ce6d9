/** When two Specs have the same fingerprint (providers/docker/provider.go:197-222): when
    they differ in white space and in the order of members only, at any depth. */
module Fingerprints {
  import opened JsonText
  import opened JsonGrammar
  import opened Cascade
  import opened Ordered

  /** Equal up to the order of members. */
  ghost predicate SameValue(v: Value, w: Value)
    decreases v, 0
  {
    match v
    case Atom(_) => v == w
    case Text(_) => v == w
    case Arr(items) => w.Arr? && SameItems(items, w.items)
    case Obj(members) => w.Obj? && SameMembers(members, w.members)
  }

  ghost predicate SameItems(a: seq<Value>, b: seq<Value>)
    decreases a, 1
  {
    |a| == |b| && forall i | 0 <= i < |a| :: SameValue(a[i], b[i])
  }

  /** The same names, with the same values. */
  ghost predicate SameMembers(a: seq<Member>, b: seq<Member>)
    decreases a, 1
  {
    Names(a) == Names(b) && forall i | 0 <= i < |a| :: exists j :: 0 <= j < |b| && SameMember(a[i], b[j])
  }

  ghost predicate SameMember(m: Member, n: Member)
    decreases m, 0
  {
    m.name == n.name && SameValue(m.value, n.value)
  }

  // The canonical members: sorted by name, each with its canonical value.

  ghost predicate RisingNames(members: seq<Member>) {
    forall i, j | 0 <= i < j < |members| :: StringLess(members[i].name, members[j].name)
  }

  function CanonicalMember(m: Member): Member {
    Member(m.name, Canonical(m.value))
  }

  lemma {:induction false} SetKeepsOrder(members: seq<Member>, m: Member)
    requires RisingNames(members)
    ensures RisingNames(SetMember(members, m))
    ensures forall n | n in SetMember(members, m) :: n == m || n in members
    decreases |members|
  {
    if members != [] {
      var head, tail := members[0], members[1..];
      assert members == [head] + tail;
      if head.name == m.name {
        assert RisingNames([m] + tail);
      } else if StringLess(m.name, head.name) {
        forall i | 0 <= i < |members| ensures StringLess(m.name, members[i].name) {
          StringLessOrder(m.name, head.name, members[i].name);
        }
      } else {
        StringLessOrder(head.name, m.name, m.name);
        SetKeepsOrder(tail, m);
        HeadBefore(head, tail, SetMember(tail, m), m);
      }
    }
  }

  lemma HeadBefore(head: Member, tail: seq<Member>, more: seq<Member>, m: Member)
    requires RisingNames([head] + tail) && RisingNames(more) && StringLess(head.name, m.name)
    requires forall n | n in more :: n == m || n in tail
    ensures RisingNames([head] + more)
  {
    assert ([head] + tail)[0] == head;
    forall j | 0 <= j < |more| ensures StringLess(head.name, more[j].name) {
      assert more[j] in more;
      if more[j] != m {
        var i :| 0 <= i < |tail| && tail[i] == more[j];
        assert ([head] + tail)[i + 1] == more[j];
      }
    }
  }

  lemma {:induction false} SetMemberAdds(members: seq<Member>, m: Member)
    requires m.name !in Names(members)
    ensures forall n :: n in SetMember(members, m) <==> n == m || n in members
    decreases |members|
  {
    if members != [] {
      assert members == [members[0]] + members[1..] && members[0] in members;
      if !StringLess(m.name, members[0].name) {
        SetMemberAdds(members[1..], m);
      }
    }
  }

  lemma {:induction false} CanonicalMembersAre(members: seq<Member>, done: seq<Member>)
    requires RisingNames(done) && DistinctNames(members) && Names(members) !! Names(done)
    ensures RisingNames(CanonicalMembers(members, done))
    ensures forall n :: n in CanonicalMembers(members, done) <==> n in done || exists m :: m in members && n == CanonicalMember(m)
    decreases |members|
  {
    if members != [] {
      var first := CanonicalMember(members[0]);
      var more := SetMember(done, first);
      assert members == [members[0]] + members[1..];
      assert members[0].name in Names(members);
      SetKeepsOrder(done, first);
      SetMemberAdds(done, first);
      forall m | m in members[1..] ensures m.name !in Names(more) {
        assert m.name in Names(members) && m.name != first.name;
      }
      CanonicalMembersAre(members[1..], more);
    }
  }

  function NamesOf(members: seq<Member>): seq<string> {
    seq(|members|, i requires 0 <= i < |members| => members[i].name)
  }

  /** Lists sorted by name with the same members are equal. */
  lemma OneRisingOrder(a: seq<Member>, b: seq<Member>)
    requires RisingNames(a) && RisingNames(b) && forall m :: m in a <==> m in b
    ensures a == b
  {
    forall n ensures n in NamesOf(a) <==> n in NamesOf(b) {
      if n in NamesOf(a) {
        var i :| 0 <= i < |a| && NamesOf(a)[i] == n;
        assert a[i] in b;
        var j :| 0 <= j < |b| && b[j] == a[i];
        assert NamesOf(b)[j] == n;
      }
      if n in NamesOf(b) {
        var i :| 0 <= i < |b| && NamesOf(b)[i] == n;
        assert b[i] in a;
        var j :| 0 <= j < |a| && a[j] == b[i];
        assert NamesOf(a)[j] == n;
      }
    }
    OneRising(NamesOf(a), NamesOf(b));
    forall i | 0 <= i < |a| ensures |a| == |b| && a[i] == b[i] {
      assert |NamesOf(a)| == |NamesOf(b)| && NamesOf(a)[i] == NamesOf(b)[i];
      assert a[i] in b;
      var j :| 0 <= j < |b| && b[j] == a[i];
      StringLessOrder(b[i].name, b[j].name, b[i].name);
    }
    assert |NamesOf(a)| == |a| && |NamesOf(b)| == |b|;
  }

  // The same value has the same canonical form ...

  lemma {:induction false} SameIsCanonical(v: Value, w: Value)
    requires SameValue(v, w) && NoDuplicates(v) && NoDuplicates(w)
    ensures Canonical(v) == Canonical(w)
    decreases v, 0
  {
    match v
    case Atom(_) =>
    case Text(_) =>
    case Arr(items) => ItemsAreCanonical(items, w.items);
    case Obj(members) => MembersAreCanonical(members, w.members);
  }

  lemma {:induction false} ItemsAreCanonical(a: seq<Value>, b: seq<Value>)
    requires SameItems(a, b) && NoDuplicateItems(a) && NoDuplicateItems(b)
    ensures CanonicalItems(a) == CanonicalItems(b)
    decreases a, 1
  {
    if a != [] {
      SameIsCanonical(a[0], b[0]);
      ItemsAreCanonical(a[1..], b[1..]);
    }
  }

  lemma {:induction false} NoDuplicateMember(members: seq<Member>, i: nat)
    requires NoDuplicateMembers(members) && i < |members|
    ensures NoDuplicates(members[i].value)
  {
    if i > 0 {
      NoDuplicateMember(members[1..], i - 1);
    }
  }

  /** Each member of one list has the canonical form of one of the other. */
  ghost predicate Matched(a: seq<Member>, b: seq<Member>) {
    forall m | m in a :: exists n :: n in b && CanonicalMember(m) == CanonicalMember(n)
  }

  lemma MatchedIsIn(a: seq<Member>, b: seq<Member>)
    requires DistinctNames(a) && DistinctNames(b) && Matched(a, b)
    ensures forall n | n in CanonicalMembers(a, []) :: n in CanonicalMembers(b, [])
  {
    CanonicalMembersAre(a, []);
    CanonicalMembersAre(b, []);
  }

  lemma MatchedIsEqual(a: seq<Member>, b: seq<Member>)
    requires DistinctNames(a) && DistinctNames(b) && Matched(a, b) && Matched(b, a)
    ensures CanonicalMembers(a, []) == CanonicalMembers(b, [])
  {
    MatchedIsIn(a, b);
    MatchedIsIn(b, a);
    CanonicalMembersAre(a, []);
    CanonicalMembersAre(b, []);
    OneRisingOrder(CanonicalMembers(a, []), CanonicalMembers(b, []));
  }

  lemma {:induction false} MembersAreCanonical(a: seq<Member>, b: seq<Member>)
    requires DistinctNames(a) && NoDuplicateMembers(a) && DistinctNames(b) && NoDuplicateMembers(b)
    requires SameMembers(a, b)
    ensures CanonicalMembers(a, []) == CanonicalMembers(b, [])
    decreases a, 1
  {
    forall m | m in a ensures exists n :: n in b && CanonicalMember(m) == CanonicalMember(n) {
      var i :| 0 <= i < |a| && a[i] == m;
      var j :| 0 <= j < |b| && SameMember(a[i], b[j]);
      NoDuplicateMember(a, i);
      NoDuplicateMember(b, j);
      SameIsCanonical(a[i].value, b[j].value);
      assert b[j] in b;
    }
    MatchedBack(a, b);
    MatchedIsEqual(a, b);
  }

  lemma MatchedBack(a: seq<Member>, b: seq<Member>)
    requires Names(a) == Names(b) && DistinctNames(b) && Matched(a, b)
    ensures Matched(b, a)
  {
    forall n | n in b ensures exists m :: m in a && CanonicalMember(n) == CanonicalMember(m) {
      assert n.name in Names(b);
      var m :| m in a && m.name == n.name;
      var k :| k in b && CanonicalMember(m) == CanonicalMember(k);
      OneOfTheName(b, n, k);
    }
  }

  lemma OneOfTheName(members: seq<Member>, m: Member, n: Member)
    requires DistinctNames(members) && m in members && n in members && m.name == n.name
    ensures m == n
  {
  }

  // ... and only that has.

  lemma {:induction false} CanonicalIsSame(v: Value, w: Value)
    requires Canonical(v) == Canonical(w) && NoDuplicates(v) && NoDuplicates(w)
    ensures SameValue(v, w)
    decreases v, 0
  {
    match v
    case Atom(_) =>
    case Text(_) =>
    case Arr(items) => CanonicalItemsAreSame(items, w.items);
    case Obj(members) => CanonicalMembersAreSame(members, w.members);
  }

  lemma {:induction false} CanonicalItemsAreSame(a: seq<Value>, b: seq<Value>)
    requires CanonicalItems(a) == CanonicalItems(b) && NoDuplicateItems(a) && NoDuplicateItems(b)
    ensures SameItems(a, b)
    decreases a, 1
  {
    if a != [] {
      assert b != [];
      assert CanonicalItems(a)[1..] == CanonicalItems(a[1..]) && CanonicalItems(b)[1..] == CanonicalItems(b[1..]);
      assert CanonicalItems(a)[0] == Canonical(a[0]) && CanonicalItems(b)[0] == Canonical(b[0]);
      CanonicalIsSame(a[0], b[0]);
      CanonicalItemsAreSame(a[1..], b[1..]);
      forall i | 0 <= i < |a| ensures SameValue(a[i], b[i]) {
        if i > 0 {
          assert a[i] == a[1..][i - 1] && b[i] == b[1..][i - 1];
        }
      }
    }
  }

  lemma {:induction false} CanonicalMembersAreSame(a: seq<Member>, b: seq<Member>)
    requires DistinctNames(a) && NoDuplicateMembers(a) && DistinctNames(b) && NoDuplicateMembers(b)
    requires CanonicalMembers(a, []) == CanonicalMembers(b, [])
    ensures SameMembers(a, b)
    decreases a, 1
  {
    EqualIsMatched(a, b);
    EqualIsMatched(b, a);
    MatchedNames(a, b);
    MatchedNames(b, a);
    forall i | 0 <= i < |a| ensures exists j :: 0 <= j < |b| && SameMember(a[i], b[j]) {
      assert a[i] in a;
      var n :| n in b && CanonicalMember(a[i]) == CanonicalMember(n);
      var j :| 0 <= j < |b| && b[j] == n;
      NoDuplicateMember(a, i);
      NoDuplicateMember(b, j);
      CanonicalMemberIsSame(a[i], b[j]);
    }
  }

  lemma {:induction false} CanonicalMemberIsSame(m: Member, n: Member)
    requires CanonicalMember(m) == CanonicalMember(n) && NoDuplicates(m.value) && NoDuplicates(n.value)
    ensures SameMember(m, n)
    decreases m, 0
  {
    CanonicalIsSame(m.value, n.value);
  }

  lemma EqualIsMatched(a: seq<Member>, b: seq<Member>)
    requires DistinctNames(a) && DistinctNames(b) && CanonicalMembers(a, []) == CanonicalMembers(b, [])
    ensures Matched(a, b)
  {
    CanonicalMembersAre(a, []);
    CanonicalMembersAre(b, []);
    forall m | m in a ensures exists n :: n in b && CanonicalMember(m) == CanonicalMember(n) {
      assert CanonicalMember(m) in CanonicalMembers(b, []);
    }
  }

  lemma MatchedNames(a: seq<Member>, b: seq<Member>)
    requires Matched(a, b)
    ensures Names(a) <= Names(b)
  {
    forall name | name in Names(a) ensures name in Names(b) {
      var m :| m in a && m.name == name;
      var n :| n in b && CanonicalMember(m) == CanonicalMember(n);
    }
  }

  /** The canonical form is the same value, its members sorted by name. */
  lemma {:induction false} CanonicalKeepsValue(v: Value)
    requires NoDuplicates(v)
    ensures SameValue(v, Canonical(v))
    ensures v.Obj? ==> RisingNames(Canonical(v).members)
    decreases v, 0
  {
    match v
    case Atom(_) =>
    case Text(_) =>
    case Arr(items) => CanonicalItemsKeepValue(items);
    case Obj(members) =>
      CanonicalMembersAre(members, []);
      CanonicalMembersKeepValue(members);
  }

  lemma {:induction false} CanonicalItemsKeepValue(items: seq<Value>)
    requires NoDuplicateItems(items)
    ensures SameItems(items, CanonicalItems(items))
    decreases items, 1
  {
    if items != [] {
      var c := CanonicalItems(items);
      CanonicalKeepsValue(items[0]);
      CanonicalItemsKeepValue(items[1..]);
      assert c[0] == Canonical(items[0]) && c[1..] == CanonicalItems(items[1..]);
      forall i | 0 <= i < |items| ensures |c| == |items| && SameValue(items[i], c[i]) {
        assert i > 0 ==> items[i] == items[1..][i - 1] && c[i] == c[1..][i - 1];
      }
    }
  }

  lemma {:induction false} CanonicalMembersKeepValue(members: seq<Member>)
    requires DistinctNames(members) && NoDuplicateMembers(members)
    ensures SameMembers(members, CanonicalMembers(members, []))
    decreases members, 1
  {
    var c := CanonicalMembers(members, []);
    CanonicalMembersAre(members, []);
    CanonicalNames(members);
    forall i | 0 <= i < |members| ensures exists j :: 0 <= j < |c| && SameMember(members[i], c[j]) {
      NoDuplicateMember(members, i);
      CanonicalKeepsValue(members[i].value);
      assert members[i] in members && CanonicalMember(members[i]) in c;
      var j :| 0 <= j < |c| && c[j] == CanonicalMember(members[i]);
      assert SameMember(members[i], c[j]);
    }
  }

  lemma CanonicalNames(members: seq<Member>)
    requires DistinctNames(members)
    ensures Names(CanonicalMembers(members, [])) == Names(members)
  {
    var c := CanonicalMembers(members, []);
    CanonicalMembersAre(members, []);
    forall name ensures name in Names(c) <==> name in Names(members) {
      if name in Names(c) {
        var n :| n in c && n.name == name;
        var m :| m in members && n == CanonicalMember(m);
      }
      if name in Names(members) {
        var m :| m in members && m.name == name;
        assert CanonicalMember(m) in c;
      }
    }
  }

  // Of members with the same name the last one counts.

  lemma {:induction false} SetTwice(members: seq<Member>, m: Member, n: Member)
    requires m.name == n.name
    ensures SetMember(SetMember(members, m), n) == SetMember(members, n)
    decreases |members|
  {
    StringLessOrder(m.name, m.name, m.name);
    if members != [] && members[0].name != m.name && !StringLess(m.name, members[0].name) {
      SetTwice(members[1..], m, n);
    }
  }

  lemma {:induction false} SetCommutes(members: seq<Member>, m: Member, n: Member)
    requires m.name != n.name && RisingNames(members)
    ensures SetMember(SetMember(members, m), n) == SetMember(SetMember(members, n), m)
    decreases |members|
  {
    StringLessOrder(m.name, n.name, m.name);
    StringLessOrder(n.name, m.name, n.name);
    if members != [] {
      var name := members[0].name;
      StringLessOrder(m.name, name, n.name);
      StringLessOrder(n.name, name, m.name);
      StringLessOrder(m.name, n.name, name);
      StringLessOrder(n.name, m.name, name);
      SetCommutes(members[1..], m, n);
    }
  }

  lemma {:induction false} OverwrittenLater(members: seq<Member>, done: seq<Member>, m: Member)
    requires RisingNames(done) && m.name in Names(members)
    ensures CanonicalMembers(members, SetMember(done, m)) == CanonicalMembers(members, done)
    decreases |members|
  {
    var first := CanonicalMember(members[0]);
    if first.name == m.name {
      SetTwice(done, m, first);
    } else {
      assert members == [members[0]] + members[1..];
      SetCommutes(done, m, first);
      SetKeepsOrder(done, first);
      OverwrittenLater(members[1..], SetMember(done, first), m);
    }
  }

  lemma {:induction false} MembersInTurn(a: seq<Member>, b: seq<Member>, done: seq<Member>)
    requires RisingNames(done)
    ensures CanonicalMembers(a + b, done) == CanonicalMembers(b, CanonicalMembers(a, done))
    ensures RisingNames(CanonicalMembers(a, done))
    decreases |a|
  {
    if a == [] {
      assert a + b == b;
    } else {
      assert (a + b)[0] == a[0] && (a + b)[1..] == a[1..] + b;
      SetKeepsOrder(done, CanonicalMember(a[0]));
      MembersInTurn(a[1..], b, SetMember(done, CanonicalMember(a[0])));
    }
  }

  /** A member followed by another of its name does not count. */
  lemma LastMemberWins(a: seq<Member>, m: Member, b: seq<Member>)
    requires m.name in Names(b)
    ensures Canonical(Obj(a + ([m] + b))) == Canonical(Obj(a + b))
  {
    var done := CanonicalMembers(a, []);
    MembersInTurn(a, [m] + b, []);
    MembersInTurn(a, b, []);
    assert ([m] + b)[0] == m && ([m] + b)[1..] == b;
    OverwrittenLater(b, done, CanonicalMember(m));
  }

  // The fingerprint.

  /** Laid out from the same lexemes: the texts differ in white space between them. */
  ghost predicate Respaced(s: string, t: string) {
    exists ls, gaps, gaps' :: Layout(ls, gaps, s) && Layout(ls, gaps', t)
  }

  /** White space is no change of a Spec. */
  lemma WhiteSpaceIsNoChange(s: string, t: string)
    requires ValidJson(s) && Respaced(s, t)
    ensures ValidJson(t) && Document(t) == Document(s) && SpecHash(t) == SpecHash(s)
  {
    var ls, gaps, gaps' :| Layout(ls, gaps, s) && Layout(ls, gaps', t);
    LayoutIsLexed(ls, gaps, s);
    LayoutIsLexed(ls, gaps', t);
  }

  /** Specs that repeat no member name have the same fingerprint exactly when their values
      are equal up to the order of members. */
  lemma FingerprintIff(s: string, t: string)
    requires ValidJson(s) && NoDuplicates(Document(s).value) && ValidJson(t) && NoDuplicates(Document(t).value)
    ensures SpecHash(s) == SpecHash(t) <==> SameValue(Document(s).value, Document(t).value)
  {
    var v, w := Document(s).value, Document(t).value;
    if Canonical(v) == Canonical(w) {
      CanonicalIsSame(v, w);
    }
    if SameValue(v, w) {
      SameIsCanonical(v, w);
    }
  }

  /** What is no JSON is compared byte for byte. */
  lemma RawBytesCount(s: string, t: string)
    requires !ValidJson(s)
    ensures SpecHash(s) == SpecHash(t) <==> s == t
  {
  }
}
